/** The constructor and setPaths as the class actually wires them, taking
    the array literal of the paths property as if it used `=>`: the
    namespace argument is never stored, so `$this->namespace` stays null,
    and setPaths reads the home directory from `$shell`, a local that is
    never assigned, so it is null too. PHP concatenates null as "". The
    warnings PHP raises for reading that undefined local are not modelled;
    only the resulting value is. */
module EnvPathsAsWritten {
  import opened PathStrings
  import opened EnvPaths
  import opened EnvPathsProperties

  function ConstructAsWritten(namespace: string, uidArg: Option<nat>, env: Environment): (r: Result<PathSet>)
    ensures r.Err? <==> !IsSupported(env.family)
    ensures r.Ok? && env.family != "Darwin" ==>
      r.value.data == Join(env.sep, ["", ".local", "share"])
  {
    var uid := EffectiveUid(uidArg, env);
    var r := SetPaths(env.family, Host(env.sep, "", uid, env.tempDir), "");
    if r.Ok? && env.family != "Darwin" then
      LinuxFamilyLayout("Linux", Host(env.sep, "", uid, env.tempDir), "");
      r
    else
      r
  }

  /** As written, the namespace has no effect on any path. */
  lemma AsWrittenIgnoresNamespace(namespace: string, uidArg: Option<nat>, env: Environment)
    ensures ConstructAsWritten(namespace, uidArg, env) == ConstructAsWritten("", uidArg, env)
  {
  }

  /** As written, no path depends on the user's home directory: on Linux
      the data path is rooted at the filesystem root for every home. */
  lemma AsWrittenIgnoresHome(namespace: string, uidArg: Option<nat>, env: Environment, otherHome: nat -> string)
    ensures ConstructAsWritten(namespace, uidArg, env) == ConstructAsWritten(namespace, uidArg, env.(homeOf := otherHome))
  {
  }

  /** `new EnvPaths('unicorn', 1000)` on Linux with separator '/' and home
      /home/u for user 1000: the class as written yields /.local/share for
      data, which neither lies in the home directory nor names the
      namespace. */
  lemma AsWrittenCounterexample(env: Environment)
    requires env.family == "Linux" && env.sep == '/' && env.homeOf(1000) == "/home/u"
    ensures ConstructAsWritten("unicorn", Some(1000), env).Ok?
    ensures ConstructAsWritten("unicorn", Some(1000), env).value.data == "/.local/share"
    ensures !EndsWith(ConstructAsWritten("unicorn", Some(1000), env).value.data, "/unicorn")
    ensures !StartsWith(ConstructAsWritten("unicorn", Some(1000), env).value.data, "/home/u/")
  {
    var asWritten := ConstructAsWritten("unicorn", Some(1000), env).value.data;
    assert asWritten == "/.local/share" by {
      Join3('/', "", ".local", "share");
    }
    assert asWritten[|asWritten| - 8] == 'a';
    assert asWritten[1] == '.';
  }

  /** The same call through the intended flow: data lies under /home/u/ and
      ends in /unicorn. */
  lemma IntendedFlowExample(env: Environment)
    requires env.family == "Linux" && env.sep == '/' && env.homeOf(1000) == "/home/u"
    ensures Construct("unicorn", Some(1000), env).Ok?
    ensures EndsWith(Construct("unicorn", Some(1000), env).value.data, "/unicorn")
    ensures StartsWith(Construct("unicorn", Some(1000), env).value.data, "/home/u/")
  {
    var r := Construct("unicorn", Some(1000), env);
    assert Truthy("unicorn");
    assert ['/'] + "unicorn" == "/unicorn";
    assert EffectiveUid(Some(1000), env) == 1000;
    assert env.homeOf(1000) + ['/'] == "/home/u/";
  }
}
