# env-paths in Dafny

A model of the `EnvPaths` PHP class (bgreenacre/env-paths). For an
operating-system family, the class works out the five directories an
application should use: `data`, `cache`, `config`, `log` and `temp`. It can
scope them with a namespace. `setPaths` is a `switch` on the family name.
Each recognised family composes the five paths by concatenating fixed
segments onto the user's home directory or onto the system temp directory.
Any other family throws.

The model is one pure function, `EnvPaths.SetPaths(family, host, namespace)`.
It returns `Ok(PathSet)` or `Err(UnsupportedPlatform)`.

- `family` is the `PHP_OS_FAMILY` string. It is matched exactly against
  `Windows`, `Darwin`, `Linux`, `BSD` and `Solaris`.
- `host` holds the directory separator (one character), the home directory,
  the user id (a natural number) and the system temp directory.
- The user id is written into the temp path the way PHP writes an integer
  into a string. That is `PathStrings.DecimalString`, proved to round-trip
  with `PathStrings.DecimalValue`.
- The namespace condition follows PHP's string-to-bool conversion (`Truthy`).
  So both `""` and `"0"` count as "no namespace".

`EnvPaths.Construct` models the constructor with the data flow it evidently
intends:

- The uid is the argument when one is given, else the process's uid.
- The home directory is the password-database entry for that uid. The
  database is a function parameter.
- The namespace argument is passed on to `setPaths`.

The class as written does not do this (see "## Findings"). Also, lines 11-15
of the class write the `paths` array literal with `:` instead of `=>`, so the
file does not parse. The model reads those lines as the five-key array they
evidently mean.

Modules:

- `PathStrings` holds prefix and suffix facts and `Join`, a reference
  definition of a separator-joined path. An empty segment in `Join` shows up
  as a doubled separator. It also holds PHP's decimal rendering of integers.
- `EnvPaths` holds the data model, `SetPaths` and `Construct`.
- `EnvPathsProperties` holds the properties of `SetPaths` and `Construct`.
- `EnvPathsAsWritten` holds the constructor as actually written and the
  counterexample to it.

## Model

| member | source | states |
|---|---|---|
| `EnvPaths.Classify` | src/EnvPaths.php:27-66 | The switch matches the family name exactly. The result is `Other` exactly when the name is not one of the five supported families. The name is always recoverable from the result. |
| `EnvPathsProperties.ClassifyRoundTrip` | src/EnvPaths.php:27-66 | Classifying a platform's name gives back that platform. The one exception is an `Other` carrying a supported name, which the switch would route to its real case. |
| `EnvPaths.SetPaths` | src/EnvPaths.php:25-68 | The result is an error exactly when the family is unsupported. With a truthy namespace, all five paths end in `<sep><namespace>`. The namespace part is `NamespaceSuffix`, which models the `($this->namespace ? DIRECTORY_SEPARATOR . $this->namespace : '')` repeated on lines 31-59, with PHP's string-to-bool rule as `Truthy`. |
| `EnvPaths.UnixStylePaths` | src/EnvPaths.php:54-60 | Each of the five Linux-style paths ends with the namespace part that setPaths appends. This follows directly from the body; the exact values are stated by `LinuxFamilyLayout`. |
| `EnvPaths.DarwinPaths` | src/EnvPaths.php:40-48 | Each of the five Darwin paths ends with the namespace part that setPaths appends. This follows directly from the body; the exact values are stated by `DarwinLayout`. |
| `EnvPathsProperties.UnsupportedFamilyFails` | src/EnvPaths.php:63-66 | Any family outside the five yields the unsupported-platform error and no path set. |
| `EnvPathsProperties.UnknownFamiliesFail` | src/EnvPaths.php:63-65 | Instances of `UnsupportedFamilyFails`, kept as a record of the misspelt label: `Unknown`, the misspelt `Unkown` label and lower-case `linux` all fail. |
| `EnvPathsProperties.LinuxFamilyAgree` | src/EnvPaths.php:51-53 | Linux, BSD and Solaris give identical path sets for identical inputs. |
| `EnvPathsProperties.WindowsMatchesLinux` | src/EnvPaths.php:29-36 | The Windows branch gives exactly the Linux path set for the same inputs. |
| `EnvPathsProperties.LinuxFamilyLayout` | src/EnvPaths.php:54-60 | On Linux, BSD and Solaris the paths are these segment lists, each followed by the namespace segment only when it is truthy: data is home/.local/share, cache is home/.cache, config is home/.config, log is home/.local/state, and temp is tempDir/uid. |
| `EnvPathsProperties.DarwinLayout` | src/EnvPaths.php:40-48 | On Darwin the paths are these segment lists, plus the namespace when truthy: data is home/Library/Application Support/"", with an empty segment from the extra separator; cache is home/Library/Caches; config is home/Library/Preferences; log is home/Library/Logs; temp is the temp directory alone. |
| `EnvPathsProperties.DarwinDataSeparator` | src/EnvPaths.php:43 | Darwin data ends in a bare separator when there is no namespace. Otherwise it ends in two separators followed by the namespace. |
| `EnvPathsProperties.DarwinUnderLibrary` | src/EnvPaths.php:40-46 | Darwin data, cache, config and log all start with `home<sep>Library<sep>`. |
| `EnvPathsProperties.DarwinIgnoresUid` | src/EnvPaths.php:39-48 | No Darwin path depends on the user id, so every user shares the temp directory. |
| `EnvPathsProperties.PathsUnderTheirRoots` | src/EnvPaths.php:29-60 | On every supported family all five entries are populated: the four home-based paths start with `home<sep>`, and temp starts with the temp directory. |
| `EnvPathsProperties.NamespaceAppended` | src/EnvPaths.php:31-59 | On every supported family, a truthy namespace turns each namespace-free path P into `P<sep><namespace>`. |
| `EnvPathsProperties.FalsyNamespaceIgnored` | src/EnvPaths.php:31-59 | A falsy namespace (`""` or `"0"`, by PHP's string-to-bool rule) gives exactly the namespace-free result, on every family. |
| `EnvPathsProperties.TempCarriesUid` | src/EnvPaths.php:59 | On Linux, BSD and Solaris, temp is `tempDir<sep>`, then a uid segment, then the namespace part. The uid segment is present even without a namespace, and it is exactly `DecimalString(uid)`, which `DecimalRoundTrip` reads back as the uid. |
| `EnvPathsProperties.DistinctUsersDistinctTemp` | src/EnvPaths.php:59 | On Linux, BSD and Solaris, two different uids never get the same temp path. |
| `PathStrings.DecimalString` | src/EnvPaths.php:59 | An integer concatenated into the temp path is a non-empty run of decimal digits. It has no leading zero except for 0 itself, and it is one digit exactly for values below 10. |
| `PathStrings.DecimalRoundTrip` | src/EnvPaths.php:59 | Reading back the digits written for the uid gives the uid. |
| `PathStrings.CanonicalDecimalRoundTrip` | src/EnvPaths.php:59 | Every canonical digit string is what gets written for the number it denotes, so the rendering is a bijection onto canonical digit strings. |
| `PathStrings.DecimalStringInjective` | src/EnvPaths.php:59 | Distinct uids are written as distinct strings. |
| `EnvPaths.Construct` | src/EnvPaths.php:18-22 | With the intended data flow, the result is an error exactly when the family is unsupported. A truthy namespace ends every path. The uid is `EffectiveUid`, which models line 20's `$uid ?? \posix_getuid()`. Off Darwin, data starts with that uid's home directory, and temp starts with `tempDir<sep>` and that uid's digits. |
| `EnvPathsProperties.ConstructUnderHome` | src/EnvPaths.php:18-58 | With the intended data flow, on every supported family (Darwin included), data, cache, config and log start with the effective uid's home directory followed by a separator, and temp starts with the temp directory. |
| `EnvPathsAsWritten.ConstructAsWritten` | src/EnvPaths.php:18-22 | As written, and given the POSIX lookups, the constructor fails exactly on unsupported families. Off Darwin, data is `<sep>.local<sep>share` whatever the home directory. |
| `EnvPathsAsWritten.AsWrittenIgnoresNamespace` | src/EnvPaths.php:18-22 | As written, the namespace argument changes no path. |
| `EnvPathsAsWritten.AsWrittenIgnoresHome` | src/EnvPaths.php:31-58 | As written, the password database's home directory changes no path. |
| `EnvPathsAsWritten.AsWrittenCounterexample` | src/EnvPaths.php:55 | For `'unicorn'`, uid 1000 and home `/home/u` on Linux, the as-written data path is `/.local/share`. It neither ends in `/unicorn` nor lies under `/home/u/`. |
| `EnvPathsAsWritten.IntendedFlowExample` | src/EnvPaths.php:18-22 | For the same call, the intended flow gives a data path under `/home/u/` that ends in `/unicorn`. |

## Left out

- The calls to `posix_getuid` and `posix_getpwuid` (src/EnvPaths.php:20-21) are operating-system lookups. They are the `processUid` and `homeOf` inputs of `Environment`. A uid missing from the password database is modelled only by whatever `homeOf` returns for it.
- `PHP_OS_FAMILY`, `DIRECTORY_SEPARATOR` and `sys_get_temp_dir()` are host environment. They are the `family`, `sep` and `tempDir` inputs.
- The text of the exception (src/EnvPaths.php:65) is left out. The error is a bare `UnsupportedPlatform`.
- The uid is taken to be a non-negative integer. The file declares `strict_types=1` (src/EnvPaths.php:3), so a uid that is not an int makes `posix_getpwuid` (src/EnvPaths.php:21) throw a TypeError before setPaths runs. That error path is left out. The only int that `nat` excludes is a negative one, which would be written as `-N` in the temp path.
- EnvPaths.Construct: promises a path set on `Windows`, where PHP has no POSIX extension. There the constructor fails at src/EnvPaths.php:20-21 with a call to an undefined function, before setPaths runs, so the Windows branch (src/EnvPaths.php:29-36) is unreachable through the class's API: the class is final (src/EnvPaths.php:5) and setPaths is protected (src/EnvPaths.php:25). The model does not represent that failure; `Environment` supplies the uid and home lookups on every family.
- EnvPathsAsWritten.ConstructAsWritten: promises a path set on `Windows` too, where the as-written constructor fails the same way at src/EnvPaths.php:20-21 for lack of the POSIX extension. As for `EnvPaths.Construct`, `Environment` supplies the lookups on every family.
- EnvPathsAsWritten.ConstructAsWritten: drops the diagnostics PHP emits for each read of `$shell['dir']` (src/EnvPaths.php:31-34, 40 and 55-58). These are "Undefined variable $shell" and "Trying to access array offset on value of type null", which are warnings on PHP 8 and notices on PHP 7.4. The member models only the value that results when these diagnostics are not turned into exceptions. Under an error handler that converts them, the constructor throws at the first such read instead of returning paths.
- The namespace suffix (`-php` or a custom one), `toArray()` and array-key access appear only in the tests. The class has none of them, nor `XDG_*`, `APPDATA` or `LOCALAPPDATA` overrides, nor a join helper that skips empty segments, so the model has none either. `Join` is only a reference for stating path layouts. Likewise, the Windows branch is modelled as the Linux composition the code writes, not as an `AppData` layout.
- Memoising the paths in the object is left out. Every call of `SetPaths` recomputes them.

## Findings

| source | as written | input that shows it | evidently intended | confidence | as-written member | corrected member |
|---|---|---|---|---|---|---|
| src/EnvPaths.php:18-22 | The constructor never assigns its `$namespace` argument to `$this->namespace`. So the namespace stays null and no path carries it. | `new EnvPaths('unicorn', 1000)` on Linux gives data `/.local/share`, which does not end in `/unicorn` (`AsWrittenCounterexample`, `AsWrittenIgnoresNamespace`). | Every path ends in `<sep>unicorn` (`Construct`, `IntendedFlowExample`). | high; not executed | `EnvPathsAsWritten.ConstructAsWritten` | `EnvPaths.Construct` |
| src/EnvPaths.php:31-58 | setPaths reads `$shell['dir']`, but `$shell` is a local that is never assigned. The password entry is stored in `$this->shell`. So the home part is null, and it concatenates as the empty string. Each such read also raises the warnings "Undefined variable $shell" and "Trying to access array offset on value of type null" (notices on PHP 7.4), so the value below holds only when those are not converted to exceptions. | The same call with home `/home/u` gives data `/.local/share`, outside `/home/u/` (`AsWrittenCounterexample`, `AsWrittenIgnoresHome`). | Data is `/home/u/.local/share/unicorn`, and on every family data, cache, config and log lie under the home directory (`ConstructUnderHome`, `IntendedFlowExample`). | high; not executed | `EnvPathsAsWritten.ConstructAsWritten` | `EnvPathsProperties.ConstructUnderHome` |
