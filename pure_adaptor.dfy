/** The adaptor's entry point (pure_adaptor/pure_adaptor.py): the pre-flight check that every
    required environment variable is set, with the process exit turned into a returned outcome. */
module PureAdaptor {
  import opened Seqs
  import opened Strings

  /** How the check ends: it returns normally, or writes `message` to standard error and exits
      the process with `status`. */
  datatype Outcome = Continue | Exit(status: int, message: string)

  /** `os.environ.get(name)` is truthy: the variable is set and not empty. */
  predicate IsSet(env: map<string, string>, name: string)
  {
    name in env && env[name] != ""
  }

  const ErrorPrefix: string := "The following env variables have not been set: "

  /** The names `all_env_vars_exist` reports: the keys of the dict built from `var_names` (each
      name once, at its first occurrence) whose value is unset or empty. */
  function MissingNames(env: map<string, string>, names: seq<string>): (r: seq<string>)
    ensures forall x :: x in r <==> x in names && !IsSet(env, x)
  {
    var d := Distinct(names);
    var r := Filter(d, (n: string) => !IsSet(env, n));
    assert forall x :: x in names && !IsSet(env, x) ==> x in r by {
      forall x | x in names && !IsSet(env, x) ensures x in r {
        assert x in d;
        var i :| 0 <= i < |d| && d[i] == x;
      }
    }
    r
  }

  /** The missing names are listed once each, in the order of their first occurrence. */
  lemma MissingNamesOrder(env: map<string, string>, names: seq<string>)
    ensures var r := MissingNames(env, names);
      && NoDuplicates(r)
      && InFirstOccurrenceOrder(r, names)
  {
    var keep := (n: string) => !IsSet(env, n);
    DistinctOrder(names);
    FilterKeepsOrder(Distinct(names), names, keep);
    FilterNoDuplicates(Distinct(names), keep);
  }

  /** `all_env_vars_exist`: exit with status 2 and the list of missing names when one of the
      variables is unset or empty, otherwise return without writing anything. */
  function AllEnvVarsExist(env: map<string, string>, varNames: seq<string>): (r: Outcome)
    ensures r.Exit? <==> exists i :: 0 <= i < |varNames| && !IsSet(env, varNames[i])
    ensures r.Exit? ==> r.status == 2
    ensures r.Exit? ==> r.message == ErrorPrefix + Join(MissingNames(env, varNames), ", ")
  {
    var missing := MissingNames(env, varNames);
    if missing == [] then
      assert forall i :: 0 <= i < |varNames| ==> varNames[i] in varNames;
      Continue
    else
      assert missing[0] in missing;
      Exit(2, ErrorPrefix + Join(missing, ", "))
  }

  /** A name given twice and unset is reported once. */
  lemma RepeatedNameReportedOnce(env: map<string, string>, name: string)
    requires !IsSet(env, name)
    ensures AllEnvVarsExist(env, [name, name]) == Exit(2, ErrorPrefix + name)
  {
    var names := [name, name];
    assert [name][..0] == [];
    assert Distinct([name]) == [name];
    assert names[..1] == [name];
    assert Distinct(names) == [name];
    assert MissingNames(env, names) == [name];
  }

  /** The variables `main` requires, in the order it checks them. */
  const RequiredEnvVariables: seq<string> := ["API_URL", "API_VERSION", "API_KEY", "UPLOAD_BUCKET"]

  /** `main`: the check of the required variables is all it does. */
  function Main(env: map<string, string>): (r: Outcome)
    ensures r.Continue? <==>
      IsSet(env, "API_URL") && IsSet(env, "API_VERSION") && IsSet(env, "API_KEY") && IsSet(env, "UPLOAD_BUCKET")
    ensures r.Exit? ==> r.status == 2
  {
    var names := RequiredEnvVariables;
    assert names[0] == "API_URL" && names[1] == "API_VERSION" && names[2] == "API_KEY" && names[3] == "UPLOAD_BUCKET";
    AllEnvVarsExist(env, names)
  }

  /** With only the API key unset, `main` exits naming exactly that variable. */
  lemma MainReportsMissingKey(env: map<string, string>)
    requires IsSet(env, "API_URL") && IsSet(env, "API_VERSION") && !IsSet(env, "API_KEY") && IsSet(env, "UPLOAD_BUCKET")
    ensures Main(env) == Exit(2, ErrorPrefix + "API_KEY")
  {
    var names := RequiredEnvVariables;
    assert names[..1][..0] == [];
    assert names[..2][..1] == names[..1];
    assert names[..3][..2] == names[..2];
    assert names[..4][..3] == names[..3];
    assert Distinct(names[..1]) == names[..1];
    assert Distinct(names[..2]) == names[..2];
    assert Distinct(names[..3]) == names[..3];
    assert Distinct(names[..4]) == names[..4] == names;
    var missing := (n: string) => !IsSet(env, n);
    assert Filter(names[3..], missing) == [];
    assert names[2..][1..] == names[3..];
    assert Filter(names[2..], missing) == ["API_KEY"];
    assert names[1..][1..] == names[2..];
    assert Filter(names[1..], missing) == ["API_KEY"];
    assert Filter(names, missing) == ["API_KEY"];
    assert MissingNames(env, names) == ["API_KEY"];
  }
}
