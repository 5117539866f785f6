/**
 * utils/config.go: the service configuration. Values come from the `.env.local` file,
 * then from non-empty environment variables, and are then checked in a fixed order. The
 * sixteen fields are held as a map from their variable names to their values.
 */
module Configuration {
  import opened Wrappers

  /** The variable names, one per Config field, in the order the fields are declared. */
  const Keys: seq<string> := [
    "LISTMONK_URL", "PORT", "AUTH_USER", "AUTH_PASSWORD", "JWT_SECRET",
    "FRONTEND_URL", "AWS_REGION", "SES_FROM_EMAIL", "AWS_ACCESS_KEY_ID", "AWS_SECRET_ACCESS_KEY",
    "DB_HOST", "DB_PORT", "DB_NAME", "DB_USER", "DB_PASSWORD", "REDIS_ADDR"]

  /** The fields that must end up non-empty, in the order they are checked. */
  const Required: seq<string> := [
    "LISTMONK_URL", "AUTH_USER", "AUTH_PASSWORD", "JWT_SECRET",
    "FRONTEND_URL", "AWS_REGION", "SES_FROM_EMAIL", "AWS_ACCESS_KEY_ID", "AWS_SECRET_ACCESS_KEY",
    "DB_NAME", "DB_USER", "DB_PASSWORD", "REDIS_ADDR"]

  const DefaultPort := "8808"

  /** A zero Config: every field empty. */
  const Blank: map<string, string> := map k | k in Keys :: ""

  /** A field's value; a name that is not a field reads as empty. */
  function Get(values: map<string, string>, key: string): string {
    if key in values then values[key] else ""
  }

  /** The white space strings.TrimSpace removes (its ASCII part). */
  predicate IsSpace(c: char) {
    c == ' ' || c == '\t' || c == '\n' || c == '\r' || c == '\U{0B}' || c == '\U{0C}'
  }

  predicate AllSpace(s: string) {
    forall i | 0 <= i < |s| :: IsSpace(s[i])
  }

  /** The position of the first non-space at or after `i` (|s| when there is none). */
  function SkipSpaces(s: string, i: nat): (n: nat)
    requires i <= |s|
    ensures i <= n <= |s|
    ensures forall j | i <= j < n :: IsSpace(s[j])
    ensures n < |s| ==> !IsSpace(s[n])
    decreases |s| - i
  {
    if i == |s| || !IsSpace(s[i]) then i else SkipSpaces(s, i + 1)
  }

  /** The end of `s[lo..j]` once the spaces before `j` are dropped, stopping at `lo`. */
  function DropSpaces(s: string, lo: nat, j: nat): (m: nat)
    requires lo <= j <= |s|
    ensures lo <= m <= j
    ensures forall t | m <= t < j :: IsSpace(s[t])
    ensures m > lo ==> !IsSpace(s[m - 1])
  {
    if j == lo || !IsSpace(s[j - 1]) then j else DropSpaces(s, lo, j - 1)
  }

  /** strings.TrimSpace: the text without its leading and trailing white space. */
  function TrimSpace(s: string): (r: string)
    ensures |r| <= |s|
    ensures r == [] || (!IsSpace(r[0]) && !IsSpace(r[|r| - 1]))
  {
    var a := SkipSpaces(s, 0);
    s[a..DropSpaces(s, a, |s|)]
  }

  /** TrimSpace removes exactly the white space around a text and nothing of the text. */
  lemma TrimSpaceOfPadded(p: string, t: string, q: string)
    requires AllSpace(p) && AllSpace(q)
    requires t == [] || (!IsSpace(t[0]) && !IsSpace(t[|t| - 1]))
    ensures TrimSpace(p + t + q) == t
  {
    var s := p + t + q;
    var a := SkipSpaces(s, 0);
    if t == [] {
      assert forall j | 0 <= j < |s| :: IsSpace(s[j]) by {
        forall j | 0 <= j < |s|
          ensures IsSpace(s[j])
        {
          if j < |p| { assert s[j] == p[j]; } else { assert s[j] == q[j - |p|]; }
        }
      }
      assert a == |s|;
    } else {
      assert forall j | 0 <= j < |p| :: s[j] == p[j];
      assert s[|p|] == t[0];
      assert a == |p|;
      var b := DropSpaces(s, a, |s|);
      assert forall j | |p| + |t| <= j < |s| :: s[j] == q[j - |p| - |t|];
      assert s[|p| + |t| - 1] == t[|t| - 1];
      assert b == |p| + |t|;
      assert s[a..b] == t;
    }
  }

  /** The position of the first '=', if any. */
  function IndexOfEquals(s: string): (i: Option<nat>)
    ensures i.None? <==> '=' !in s
    ensures i.Some? ==> i.value < |s| && s[i.value] == '=' && '=' !in s[..i.value]
  {
    if s == [] then None
    else if s[0] == '=' then Some(0)
    else
      match IndexOfEquals(s[1..])
      case None => None
      case Some(j) =>
        assert s[..j + 1] == [s[0]] + s[1..][..j];
        Some(j + 1)
  }

  /**
   * strings.SplitN(line, "=", 2) when it gives two parts: the text before the first '='
   * and everything after it, further '=' included.
   */
  function SplitLine(line: string): (r: Option<(string, string)>)
    ensures r.None? <==> '=' !in line
    ensures r.Some? ==> line == r.value.0 + "=" + r.value.1 && '=' !in r.value.0
  {
    match IndexOfEquals(line)
    case None => None
    case Some(i) =>
      assert line == line[..i] + "=" + line[i + 1..];
      Some((line[..i], line[i + 1..]))
  }

  /** One line of the file: a known key, trimmed, takes the trimmed value; any other line is skipped. */
  function ApplyLine(values: map<string, string>, line: string): (r: map<string, string>)
    ensures '=' !in line ==> r == values
  {
    match SplitLine(line)
    case None => values
    case Some((k, v)) =>
      var key := TrimSpace(k);
      if key in Keys then values[key := TrimSpace(v)] else values
  }

  /** The fields after reading the lines of `.env.local` in order. */
  function FileValues(values: map<string, string>, lines: seq<string>): map<string, string> {
    if lines == [] then values
    else ApplyLine(FileValues(values, lines[..|lines| - 1]), lines[|lines| - 1])
  }

  /**
   * The fields after the environment overrides of the variables `names`, in order; an
   * unset or empty variable changes nothing.
   */
  function Override(values: map<string, string>, env: map<string, string>, names: seq<string>): map<string, string> {
    if names == [] then values
    else
      var key := names[|names| - 1];
      var before := Override(values, env, names[..|names| - 1]);
      if key in env && env[key] != "" then before[key := env[key]] else before
  }

  /**
   * After the overrides a field holds the variable's value when that variable is among
   * `names` and set to a non-empty value, and its earlier value otherwise.
   */
  lemma {:induction false} OverrideFacts(values: map<string, string>, env: map<string, string>, names: seq<string>)
    ensures forall k :: k in Override(values, env, names) <==> k in values || (k in names && k in env && env[k] != "")
    ensures forall k | k in Override(values, env, names) ::
      Override(values, env, names)[k] == if k in names && k in env && env[k] != "" then env[k] else values[k]
  {
    if names != [] {
      var key := names[|names| - 1];
      var init := names[..|names| - 1];
      OverrideFacts(values, env, init);
      assert forall k :: k in names <==> k in init || k == key;
    }
  }

  /** The fields after all sixteen environment overrides. */
  function Overridden(values: map<string, string>, env: map<string, string>): map<string, string> {
    Override(values, env, Keys)
  }

  /** The first required name, in checking order, whose field is empty. */
  function FirstMissing(values: map<string, string>, names: seq<string>): (m: Option<nat>)
    ensures m.Some? ==> m.value < |names| && Get(values, names[m.value]) == ""
    ensures m.Some? ==> forall j | 0 <= j < m.value :: Get(values, names[j]) != ""
    ensures m.None? <==> forall j | 0 <= j < |names| :: Get(values, names[j]) != ""
  {
    if names == [] then None
    else if Get(values, names[0]) == "" then Some(0)
    else
      match FirstMissing(values, names[1..])
      case None => None
      case Some(j) => Some(j + 1)
  }

  /** The port defaults to 8808 when still empty. */
  function PortDefaulted(values: map<string, string>): (r: map<string, string>)
    ensures Get(r, "PORT") != ""
    ensures Get(values, "PORT") != "" ==> r == values
    ensures forall k | k != "PORT" :: Get(r, k) == Get(values, k)
  {
    if Get(values, "PORT") == "" then values["PORT" := DefaultPort] else values
  }

  /** The checks of LoadConfig: LISTMONK_URL first, then the port default, then the others. */
  function Validated(values: map<string, string>): (r: Result<map<string, string>, string>)
    ensures r.Success? ==> Get(r.value, "PORT") != ""
    ensures r.Success? ==> forall k | k != "PORT" :: Get(r.value, k) == Get(values, k)
  {
    if Get(values, Required[0]) == "" then Failure(Required[0] + " is not set")
    else
      var v := PortDefaulted(values);
      match FirstMissing(v, Required[1..])
      case Some(i) => Failure(Required[1..][i] + " is not set")
      case None => Success(v)
  }

  /** Everything LoadConfig reads: the file's lines (None when it cannot be read) and the environment. */
  function Loaded(file: Option<seq<string>>, env: map<string, string>): map<string, string> {
    Overridden(if file.Some? then FileValues(Blank, file.value) else Blank, env)
  }

  /** A later line for the same known key wins over the earlier ones. */
  lemma LaterLineWins(values: map<string, string>, lines: seq<string>, line: string, k: string, v: string)
    requires SplitLine(line) == Some((k, v)) && TrimSpace(k) in Keys
    ensures FileValues(values, lines + [line]) == FileValues(values, lines)[TrimSpace(k) := TrimSpace(v)]
  {
    assert (lines + [line])[..|lines|] == lines;
  }

  /** A line whose trimmed key names no field changes nothing. */
  lemma UnknownKeyIgnored(values: map<string, string>, lines: seq<string>, line: string, k: string, v: string)
    requires SplitLine(line) == Some((k, v)) && TrimSpace(k) !in Keys
    ensures FileValues(values, lines + [line]) == FileValues(values, lines)
  {
    assert (lines + [line])[..|lines|] == lines;
  }

  /** Reading the file keeps exactly the sixteen fields. */
  lemma {:induction false} FileKeepsFields(values: map<string, string>, lines: seq<string>)
    requires values.Keys == Blank.Keys
    ensures FileValues(values, lines).Keys == Blank.Keys
  {
    if lines != [] {
      FileKeepsFields(values, lines[..|lines| - 1]);
      var before := FileValues(values, lines[..|lines| - 1]);
      var line := lines[|lines| - 1];
      if SplitLine(line).Some? && TrimSpace(SplitLine(line).value.0) in Keys {
        assert TrimSpace(SplitLine(line).value.0) in Blank;
      }
    }
  }

  /** On success every required field, and the port, is non-empty. */
  lemma {:induction false} ValidatedComplete(values: map<string, string>)
    requires Validated(values).Success?
    ensures forall k | k in Required :: Get(Validated(values).value, k) != ""
    ensures Get(Validated(values).value, "PORT") != ""
  {
    var v := PortDefaulted(values);
    assert FirstMissing(v, Required[1..]).None?;
    forall k | k in Required
      ensures Get(v, k) != ""
    {
      var i :| 0 <= i < |Required| && Required[i] == k;
      if i > 0 {
        assert Required[1..][i - 1] == k;
      }
    }
  }

  /** The checks fail exactly when a required field is empty, naming the first such field. */
  lemma ValidatedByFirstMissing(values: map<string, string>)
    ensures Validated(values).Failure? <==> FirstMissing(values, Required).Some?
    ensures Validated(values).Failure? ==>
      Validated(values).error == Required[FirstMissing(values, Required).value] + " is not set"
  {
    RequiredAreFields();
    var rest := Required[1..];
    assert forall k | k in rest :: k in Required;
    if Get(values, "PORT") == "" {
      FirstMissingIgnores(values, rest, "PORT", DefaultPort);
    }
    assert FirstMissing(PortDefaulted(values), rest) == FirstMissing(values, rest);
    if FirstMissing(values, rest).Some? {
      assert rest[FirstMissing(values, rest).value] == Required[FirstMissing(values, rest).value + 1];
    }
  }

  /** A failure names the first empty required field; all fields checked before it are set. */
  lemma ValidatedNamesFirstMissing(values: map<string, string>)
    requires Validated(values).Failure?
    ensures exists i | 0 <= i < |Required| ::
      && Validated(values).error == Required[i] + " is not set"
      && Get(values, Required[i]) == ""
      && forall j | 0 <= j < i :: Get(values, Required[j]) != ""
  {
    ValidatedByFirstMissing(values);
    var i := FirstMissing(values, Required).value;
    assert Validated(values).error == Required[i] + " is not set";
  }


  lemma {:induction false} FirstMissingIgnores(values: map<string, string>, names: seq<string>, key: string, x: string)
    requires key !in names
    ensures FirstMissing(values[key := x], names) == FirstMissing(values, names)
  {
    if names != [] {
      assert names[0] != key;
      FirstMissingIgnores(values, names[1..], key, x);
    }
  }

  /** DB_HOST and DB_PORT are never required: their values do not change the outcome. */
  lemma HostAndPortNotRequired(values: map<string, string>, key: string, x: string)
    requires key == "DB_HOST" || key == "DB_PORT"
    ensures Validated(values[key := x]).Success? <==> Validated(values).Success?
    ensures Validated(values).Failure? ==> Validated(values[key := x]) == Validated(values)
  {
    RequiredAreFields();
    assert key != Required[0] && key != "PORT";
    assert Get(values[key := x], Required[0]) == Get(values, Required[0]);
    var v := PortDefaulted(values);
    var w := PortDefaulted(values[key := x]);
    assert w == v[key := x];
    var rest := Required[1..];
    assert forall k | k in rest :: k in Required;
    FirstMissingIgnores(v, rest, key, x);
  }

  /**
   * Without a readable file, the environment alone decides; a missing file does not stop
   * the load when every required variable is set.
   */
  lemma {:induction false} EnvironmentSuffices(file: Option<seq<string>>, env: map<string, string>)
    requires forall k | k in Required :: k in env && env[k] != ""
    ensures Validated(Loaded(file, env)).Success?
  {
    var base := if file.Some? then FileValues(Blank, file.value) else Blank;
    OverrideFacts(base, env, Keys);
    RequiredAreFields();
    var values := Loaded(file, env);
    forall k | k in Required
      ensures Get(values, k) != ""
    {
      assert k in Keys && k in env && env[k] != "";
      assert k in values;
    }
    AllSetPasses(values);
  }

  /** With every required field set, the checks pass. */
  lemma AllSetPasses(values: map<string, string>)
    requires forall k | k in Required :: Get(values, k) != ""
    ensures Validated(values).Success?
  {
    var v := PortDefaulted(values);
    RequiredAreFields();
    assert forall j | 0 <= j < |Required[1..]| :: Required[1..][j] in Required;
    assert FirstMissing(v, Required[1..]).None?;
  }


  /** Every required name is one of the sixteen fields, and PORT is not required. */
  lemma RequiredAreFields()
    ensures forall k | k in Required :: k in Keys
    ensures "PORT" !in Required && "DB_HOST" !in Required && "DB_PORT" !in Required
  {
  }


  class Config {
    var values: map<string, string>

    constructor()
      ensures values == Blank
    {
      values := Blank;
    }

    /** loadEnvFile: apply the file's lines in order. */
    method LoadEnvFile(lines: seq<string>)
      modifies this
      ensures values == FileValues(old(values), lines)
    {
      var i := 0;
      while i < |lines|
        invariant 0 <= i <= |lines|
        invariant values == FileValues(old(values), lines[..i])
      {
        assert lines[..i + 1][..i] == lines[..i];
        var parts := SplitLine(lines[i]);
        if parts.Some? {
          SetField(TrimSpace(parts.value.0), TrimSpace(parts.value.1));
        }
        i := i + 1;
      }
      assert lines[..|lines|] == lines;
    }

    /** The `switch key` of loadEnvFile: a field name sets that field, any other key is ignored. */
    method SetField(key: string, value: string)
      modifies this
      ensures values == if key in Keys then old(values)[key := value] else old(values)
    {
      if key in Keys {
        values := values[key := value];
      }
    }

    /** The environment overrides, field by field. */
    method ApplyEnv(env: map<string, string>)
      modifies this
      ensures values == Overridden(old(values), env)
    {
      OverrideEach(env, Keys);
    }

    /** One `if v := os.Getenv(name); v != ""` assignment per name, in order. */
    method OverrideEach(env: map<string, string>, names: seq<string>)
      modifies this
      ensures values == Override(old(values), env, names)
    {
      var i := 0;
      while i < |names|
        invariant 0 <= i <= |names|
        invariant values == Override(old(values), env, names[..i])
      {
        assert names[..i + 1][..i] == names[..i];
        var key := names[i];
        if key in env && env[key] != "" {
          values := values[key := env[key]];
        }
        i := i + 1;
      }
      assert names[..|names|] == names;
    }

    /** The checks, in order; a failure leaves the port as it was at that point. */
    method Validate() returns (err: Option<string>)
      modifies this
      ensures Validated(old(values)).Success? ==> err.None? && values == Validated(old(values)).value
      ensures Validated(old(values)).Failure? ==> err == Some(Validated(old(values)).error)
      ensures values == if Get(old(values), Required[0]) == "" then old(values) else PortDefaulted(old(values))
    {
      if Get(values, Required[0]) == "" {
        return Some(Required[0] + " is not set");
      }
      if Get(values, "PORT") == "" {
        values := values["PORT" := DefaultPort];
      }
      var m := FirstEmpty(Required[1..]);
      if m.Some? {
        return Some(Required[1..][m.value] + " is not set");
      }
      err := None;
    }

    /** The `if field == ""` checks over `names`, in order: the first that fires. */
    method FirstEmpty(names: seq<string>) returns (m: Option<nat>)
      ensures m == FirstMissing(values, names)
    {
      var i := 0;
      while i < |names|
        invariant 0 <= i <= |names|
        invariant forall j | 0 <= j < i :: Get(values, names[j]) != ""
      {
        if Get(values, names[i]) == "" {
          return Some(i);
        }
        i := i + 1;
      }
      m := None;
    }
  }

  /** LoadConfig: file, then environment, then the checks; a file that cannot be read is skipped. */
  method LoadConfig(file: Option<seq<string>>, env: map<string, string>) returns (r: Result<Config, string>)
    ensures r.Failure? <==> Validated(Loaded(file, env)).Failure?
    ensures r.Failure? ==> r.error == Validated(Loaded(file, env)).error
    ensures r.Success? ==> fresh(r.value) && r.value.values == Validated(Loaded(file, env)).value
  {
    var config := new Config();
    if file.Some? {
      config.LoadEnvFile(file.value);
    }
    config.ApplyEnv(env);
    var err := config.Validate();
    if err.Some? {
      return Failure(err.value);
    }
    r := Success(config);
  }
}
