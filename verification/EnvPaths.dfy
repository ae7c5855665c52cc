/** The EnvPaths class: for one operating-system family, the five directories
    (data, cache, config, log, temp) an application should use, optionally
    scoped by a namespace. Host lookups (OS family, directory separator, the
    password database, the temp directory) are inputs here. */
module EnvPaths {
  import opened PathStrings

  datatype Option<T> = None | Some(value: T)

  /** The OS families the switch recognises; any other value of the family
      name is kept as `Other`. */
  datatype Platform = Windows | Darwin | Linux | BSD | Solaris | Other(name: string)

  datatype Error = UnsupportedPlatform

  datatype Result<T> = Ok(value: T) | Err(error: Error)

  /** The five-entry paths array, one field per key. */
  datatype PathSet = PathSet(data: string, cache: string, config: string, log: string, temp: string)

  /** What setPaths reads from its surroundings: the directory separator, the
      user's home directory, the user id and the system temp directory. */
  datatype Host = Host(sep: char, home: string, uid: nat, tempDir: string)

  /** What the constructor reads from the operating system: the family name,
      the separator, the id of the running process's user, the home
      directory the password database records for each id, and the system
      temp directory. */
  datatype Environment = Environment(
    family: string,
    sep: char,
    processUid: nat,
    homeOf: nat -> string,
    tempDir: string)

  const SupportedFamilies: set<string> := {"Windows", "Darwin", "Linux", "BSD", "Solaris"}

  predicate IsSupported(family: string) {
    family in SupportedFamilies
  }

  function FamilyName(p: Platform): string {
    match p
    case Windows => "Windows"
    case Darwin => "Darwin"
    case Linux => "Linux"
    case BSD => "BSD"
    case Solaris => "Solaris"
    case Other(name) => name
  }

  /** The case labels of the switch, matched exactly against the family name. */
  function Classify(family: string): (p: Platform)
    ensures p.Other? <==> !IsSupported(family)
    ensures FamilyName(p) == family
  {
    if family == "Windows" then Windows
    else if family == "Darwin" then Darwin
    else if family == "Linux" then Linux
    else if family == "BSD" then BSD
    else if family == "Solaris" then Solaris
    else Other(family)
  }

  /** PHP's conversion of a string to bool: only "" and "0" are false. */
  predicate Truthy(namespace: string) {
    namespace != "" && namespace != "0"
  }

  /** The trailing part every path receives: a separator and the namespace
      when the namespace is truthy, nothing otherwise. */
  function NamespaceSuffix(sep: char, namespace: string): string {
    if Truthy(namespace) then [sep] + namespace else ""
  }

  predicate AllEndWith(paths: PathSet, suffix: string) {
    && EndsWith(paths.data, suffix)
    && EndsWith(paths.cache, suffix)
    && EndsWith(paths.config, suffix)
    && EndsWith(paths.log, suffix)
    && EndsWith(paths.temp, suffix)
  }

  /** The composition shared by the Linux, BSD and Solaris cases, which the
      Windows case repeats verbatim. */
  function UnixStylePaths(host: Host, ns: string): (p: PathSet)
    ensures AllEndWith(p, ns)
  {
    var s := [host.sep];
    ConcatEndsWith(host.home + s + ".local" + s + "share", ns);
    ConcatEndsWith(host.home + s + ".cache", ns);
    ConcatEndsWith(host.home + s + ".config", ns);
    ConcatEndsWith(host.home + s + ".local" + s + "state", ns);
    ConcatEndsWith(host.tempDir + s + DecimalString(host.uid), ns);
    PathSet(
      data := host.home + s + ".local" + s + "share" + ns,
      cache := host.home + s + ".cache" + ns,
      config := host.home + s + ".config" + ns,
      log := host.home + s + ".local" + s + "state" + ns,
      temp := host.tempDir + s + DecimalString(host.uid) + ns)
  }

  /** Helper for Construct: the Linux-style data path lies under the home
      directory and temp under the temp directory and the uid segment. */
  lemma UnixStyleRoots(host: Host, ns: string)
    ensures StartsWith(UnixStylePaths(host, ns).data, host.home + [host.sep])
    ensures StartsWith(UnixStylePaths(host, ns).temp, host.tempDir + [host.sep] + DecimalString(host.uid))
  {
    var s := [host.sep];
    var hs := host.home + s;
    ConcatStartsWith(hs, ".local");
    StartsWithAppend(hs + ".local", s, hs);
    StartsWithAppend(hs + ".local" + s, "share", hs);
    StartsWithAppend(hs + ".local" + s + "share", ns, hs);
    ConcatStartsWith(host.tempDir + s + DecimalString(host.uid), ns);
  }

  /** The Darwin case, including the separator written after
      "Application Support" before the namespace part. */
  function DarwinPaths(host: Host, ns: string): (p: PathSet)
    ensures AllEndWith(p, ns)
  {
    var s := [host.sep];
    var prefix := host.home + s + "Library" + s;
    ConcatEndsWith(prefix + "Application Support" + s, ns);
    ConcatEndsWith(prefix + "Caches", ns);
    ConcatEndsWith(prefix + "Preferences", ns);
    ConcatEndsWith(prefix + "Logs", ns);
    ConcatEndsWith(host.tempDir, ns);
    PathSet(
      data := prefix + "Application Support" + s + ns,
      cache := prefix + "Caches" + ns,
      config := prefix + "Preferences" + ns,
      log := prefix + "Logs" + ns,
      temp := host.tempDir + ns)
  }

  /** setPaths: the five directories for `family`, or an error when the
      family is not one the switch knows. */
  function SetPaths(family: string, host: Host, namespace: string): (r: Result<PathSet>)
    ensures r.Err? <==> !IsSupported(family)
    ensures r.Ok? && Truthy(namespace) ==> AllEndWith(r.value, [host.sep] + namespace)
  {
    var ns := NamespaceSuffix(host.sep, namespace);
    match Classify(family)
    case Windows => Ok(UnixStylePaths(host, ns))
    case Darwin => Ok(DarwinPaths(host, ns))
    case Linux | BSD | Solaris => Ok(UnixStylePaths(host, ns))
    case Other(_) => Err(UnsupportedPlatform)
  }

  /** The user id the constructor settles on: the argument, or the id of the
      running process's user when none is given. */
  function EffectiveUid(uidArg: Option<nat>, env: Environment): nat {
    match uidArg
    case Some(uid) => uid
    case None => env.processUid
  }

  /** The constructor, with the data flow it evidently intends: the
      namespace reaches setPaths and the home directory is the one the
      password database gives for the effective user id. */
  function Construct(namespace: string, uidArg: Option<nat>, env: Environment): (r: Result<PathSet>)
    ensures r.Err? <==> !IsSupported(env.family)
    ensures r.Ok? && Truthy(namespace) ==> AllEndWith(r.value, [env.sep] + namespace)
    ensures r.Ok? && env.family != "Darwin" ==>
      var uid := EffectiveUid(uidArg, env);
      && StartsWith(r.value.data, env.homeOf(uid) + [env.sep])
      && StartsWith(r.value.temp, env.tempDir + [env.sep] + DecimalString(uid))
  {
    var uid := EffectiveUid(uidArg, env);
    var host := Host(env.sep, env.homeOf(uid), uid, env.tempDir);
    var r := SetPaths(env.family, host, namespace);
    if r.Ok? && env.family != "Darwin" then
      UnixStyleRoots(host, NamespaceSuffix(env.sep, namespace));
      r
    else
      r
  }
}
