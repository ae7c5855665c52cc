/** Properties of setPaths: which families succeed, which families agree,
    the segments each path is made of, and how the namespace and the user
    id show up in the result. */
module EnvPathsProperties {
  import opened PathStrings
  import opened EnvPaths

  /** The namespace as a trailing path segment: present exactly when it is truthy. */
  function NamespaceSegments(namespace: string): seq<string> {
    if Truthy(namespace) then [namespace] else []
  }

  predicate IsLinuxFamily(family: string) {
    family == "Linux" || family == "BSD" || family == "Solaris"
  }

  /** Every path of `paths` with `suffix` appended. */
  function Suffixed(paths: PathSet, suffix: string): PathSet {
    PathSet(paths.data + suffix, paths.cache + suffix, paths.config + suffix,
            paths.log + suffix, paths.temp + suffix)
  }

  /** Only the five exact family names are recognised; the family name is
      read back unchanged from the platform it selects. */
  lemma ClassifyRoundTrip(p: Platform)
    ensures Classify(FamilyName(p)) == p <==> (p.Other? ==> !IsSupported(p.name))
  {
  }

  /** Any other family, including "Unknown" and the misspelt "Unkown" case
      label, ends in the unsupported-platform error and no paths. */
  lemma UnsupportedFamilyFails(family: string, host: Host, namespace: string)
    requires !IsSupported(family)
    ensures SetPaths(family, host, namespace) == Err(UnsupportedPlatform)
  {
  }

  lemma UnknownFamiliesFail(host: Host, namespace: string)
    ensures SetPaths("Unknown", host, namespace) == Err(UnsupportedPlatform)
    ensures SetPaths("Unkown", host, namespace) == Err(UnsupportedPlatform)
    ensures SetPaths("linux", host, namespace) == Err(UnsupportedPlatform)
  {
  }

  /** Linux, BSD and Solaris share one case body. */
  lemma LinuxFamilyAgree(family: string, host: Host, namespace: string)
    requires IsLinuxFamily(family)
    ensures SetPaths(family, host, namespace) == SetPaths("Linux", host, namespace)
  {
  }

  /** The Windows case composes exactly the same five paths as Linux. */
  lemma WindowsMatchesLinux(host: Host, namespace: string)
    ensures SetPaths("Windows", host, namespace) == SetPaths("Linux", host, namespace)
  {
  }

  lemma JoinWithNamespace(sep: char, base: seq<string>, namespace: string)
    requires |base| >= 1
    ensures Join(sep, base + NamespaceSegments(namespace)) == Join(sep, base) + NamespaceSuffix(sep, namespace)
  {
    if Truthy(namespace) {
      JoinSnoc(sep, base, namespace);
    } else {
      assert base + NamespaceSegments(namespace) == base;
    }
  }

  lemma Join2(sep: char, a: string, b: string)
    ensures Join(sep, [a, b]) == a + [sep] + b
  {
    assert [a, b][1..] == [b];
  }

  lemma Join3(sep: char, a: string, b: string, c: string)
    ensures Join(sep, [a, b, c]) == a + [sep] + b + [sep] + c
  {
    assert [a, b, c][1..] == [b, c];
    Join2(sep, b, c);
  }

  lemma Join4(sep: char, a: string, b: string, c: string, d: string)
    ensures Join(sep, [a, b, c, d]) == a + [sep] + b + [sep] + c + [sep] + d
  {
    assert [a, b, c, d][1..] == [b, c, d];
    Join3(sep, b, c, d);
  }

  /** On Linux, BSD and Solaris each path is a sequence of segments: a base
      under the home directory, or the temp directory and the user id,
      followed by the namespace when it is truthy. */
  lemma LinuxFamilyLayout(family: string, host: Host, namespace: string)
    requires IsLinuxFamily(family)
    ensures SetPaths(family, host, namespace) == Ok(PathSet(
      data := Join(host.sep, [host.home, ".local", "share"] + NamespaceSegments(namespace)),
      cache := Join(host.sep, [host.home, ".cache"] + NamespaceSegments(namespace)),
      config := Join(host.sep, [host.home, ".config"] + NamespaceSegments(namespace)),
      log := Join(host.sep, [host.home, ".local", "state"] + NamespaceSegments(namespace)),
      temp := Join(host.sep, [host.tempDir, DecimalString(host.uid)] + NamespaceSegments(namespace))))
  {
    var sep := host.sep;
    Join3(sep, host.home, ".local", "share");
    JoinWithNamespace(sep, [host.home, ".local", "share"], namespace);
    Join2(sep, host.home, ".cache");
    JoinWithNamespace(sep, [host.home, ".cache"], namespace);
    Join2(sep, host.home, ".config");
    JoinWithNamespace(sep, [host.home, ".config"], namespace);
    Join3(sep, host.home, ".local", "state");
    JoinWithNamespace(sep, [host.home, ".local", "state"], namespace);
    Join2(sep, host.tempDir, DecimalString(host.uid));
    JoinWithNamespace(sep, [host.tempDir, DecimalString(host.uid)], namespace);
  }

  /** On Darwin the four home-based paths are segments under home/Library;
      data carries an empty segment after "Application Support" (the extra
      separator), and temp is the temp directory with no user id. */
  lemma DarwinLayout(host: Host, namespace: string)
    ensures SetPaths("Darwin", host, namespace) == Ok(PathSet(
      data := Join(host.sep, [host.home, "Library", "Application Support", ""] + NamespaceSegments(namespace)),
      cache := Join(host.sep, [host.home, "Library", "Caches"] + NamespaceSegments(namespace)),
      config := Join(host.sep, [host.home, "Library", "Preferences"] + NamespaceSegments(namespace)),
      log := Join(host.sep, [host.home, "Library", "Logs"] + NamespaceSegments(namespace)),
      temp := Join(host.sep, [host.tempDir] + NamespaceSegments(namespace))))
  {
    var sep := host.sep;
    Join4(sep, host.home, "Library", "Application Support", "");
    var stem := host.home + [sep] + "Library" + [sep] + "Application Support" + [sep];
    assert stem + "" == stem;
    JoinWithNamespace(sep, [host.home, "Library", "Application Support", ""], namespace);
    Join3(sep, host.home, "Library", "Caches");
    JoinWithNamespace(sep, [host.home, "Library", "Caches"], namespace);
    Join3(sep, host.home, "Library", "Preferences");
    JoinWithNamespace(sep, [host.home, "Library", "Preferences"], namespace);
    Join3(sep, host.home, "Library", "Logs");
    JoinWithNamespace(sep, [host.home, "Library", "Logs"], namespace);
    JoinWithNamespace(sep, [host.tempDir], namespace);
  }

  /** The Darwin data path ends in a bare separator without a namespace, and
      has two separators before the namespace otherwise. */
  lemma DarwinDataSeparator(host: Host, namespace: string)
    ensures SetPaths("Darwin", host, namespace).Ok?
    ensures !Truthy(namespace) ==> EndsWith(SetPaths("Darwin", host, namespace).value.data, [host.sep])
    ensures Truthy(namespace) ==> EndsWith(SetPaths("Darwin", host, namespace).value.data, [host.sep, host.sep] + namespace)
  {
  }

  /** On Darwin, data, cache, config and log lie under home/Library/. */
  lemma DarwinUnderLibrary(host: Host, namespace: string)
    ensures SetPaths("Darwin", host, namespace).Ok?
    ensures var p := SetPaths("Darwin", host, namespace).value;
      var lib := host.home + [host.sep] + "Library" + [host.sep];
      && StartsWith(p.data, lib)
      && StartsWith(p.cache, lib)
      && StartsWith(p.config, lib)
      && StartsWith(p.log, lib)
  {
  }

  /** Darwin does not use the user id at all, so every user shares one temp directory. */
  lemma DarwinIgnoresUid(host: Host, otherUid: nat, namespace: string)
    ensures SetPaths("Darwin", host, namespace) == SetPaths("Darwin", host.(uid := otherUid), namespace)
  {
  }

  predicate UnderRoots(p: PathSet, host: Host) {
    var home := host.home + [host.sep];
    && StartsWith(p.data, home)
    && StartsWith(p.cache, home)
    && StartsWith(p.config, home)
    && StartsWith(p.log, home)
    && StartsWith(p.temp, host.tempDir)
  }

  /** On every supported family the four home-based paths lie under the home
      directory and temp lies under the temp directory. */
  lemma PathsUnderTheirRoots(family: string, host: Host, namespace: string)
    requires IsSupported(family)
    ensures SetPaths(family, host, namespace).Ok?
    ensures UnderRoots(SetPaths(family, host, namespace).value, host)
  {
  }

  /** The constructor's intended flow: on every supported family, Darwin
      included, data, cache, config and log lie under the home directory
      the password database gives for the effective uid, and temp lies under
      the temp directory. */
  lemma ConstructUnderHome(namespace: string, uidArg: Option<nat>, env: Environment)
    requires IsSupported(env.family)
    ensures Construct(namespace, uidArg, env).Ok?
    ensures var uid := EffectiveUid(uidArg, env);
      UnderRoots(Construct(namespace, uidArg, env).value, Host(env.sep, env.homeOf(uid), uid, env.tempDir))
  {
    var uid := EffectiveUid(uidArg, env);
    PathsUnderTheirRoots(env.family, Host(env.sep, env.homeOf(uid), uid, env.tempDir), namespace);
  }

  /** A truthy namespace turns each namespace-free path P into P<sep><namespace>. */
  lemma NamespaceAppended(family: string, host: Host, namespace: string)
    requires IsSupported(family)
    requires Truthy(namespace)
    ensures SetPaths(family, host, namespace).Ok? && SetPaths(family, host, "").Ok?
    ensures SetPaths(family, host, namespace).value
         == Suffixed(SetPaths(family, host, "").value, [host.sep] + namespace)
  {
    var s := [host.sep];
    var bare := SetPaths(family, host, "").value;
    if family == "Darwin" {
      var prefix := host.home + s + "Library" + s;
      assert bare.data == prefix + "Application Support" + s;
      assert bare.cache == prefix + "Caches";
      assert bare.config == prefix + "Preferences";
      assert bare.log == prefix + "Logs";
      assert bare.temp == host.tempDir;
    } else {
      assert bare.data == host.home + s + ".local" + s + "share";
      assert bare.cache == host.home + s + ".cache";
      assert bare.config == host.home + s + ".config";
      assert bare.log == host.home + s + ".local" + s + "state";
      assert bare.temp == host.tempDir + s + DecimalString(host.uid);
    }
  }

  /** A falsy namespace ("" or "0") leaves every path namespace-free. */
  lemma FalsyNamespaceIgnored(family: string, host: Host, namespace: string)
    requires !Truthy(namespace)
    ensures SetPaths(family, host, namespace) == SetPaths(family, host, "")
  {
  }

  /** On Linux, BSD and Solaris the segment between the temp directory and
      the namespace part is the user id in decimal, present whether or not
      there is a namespace. */
  lemma TempCarriesUid(family: string, host: Host, namespace: string)
    requires IsLinuxFamily(family)
    ensures SetPaths(family, host, namespace).Ok?
    ensures var t := SetPaths(family, host, namespace).value.temp;
      var ns := NamespaceSuffix(host.sep, namespace);
      && |host.tempDir| + 1 <= |t| - |ns|
      && StartsWith(t, host.tempDir + [host.sep])
      && t[|host.tempDir| + 1 .. |t| - |ns|] == DecimalString(host.uid)
      && EndsWith(t, ns)
  {
  }

  /** On Linux, BSD and Solaris two users never share a temp directory. */
  lemma DistinctUsersDistinctTemp(family: string, host: Host, otherUid: nat, namespace: string)
    requires IsLinuxFamily(family)
    requires otherUid != host.uid
    ensures SetPaths(family, host, namespace).value.temp
         != SetPaths(family, host.(uid := otherUid), namespace).value.temp
  {
    var s := [host.sep];
    var ns := NamespaceSuffix(host.sep, namespace);
    if SetPaths(family, host, namespace).value.temp
       == SetPaths(family, host.(uid := otherUid), namespace).value.temp {
      CancelAround(host.tempDir + s, DecimalString(host.uid), DecimalString(otherUid), ns);
      DecimalStringInjective(host.uid, otherUid);
      assert false;
    }
  }
}
