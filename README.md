# Checkout of ABAP objects into an abapGit file tree

This project models the checkout commands of `sap/cli/checkout.py`. They export ABAP
classes, programs and interfaces from an SAP system into local files laid out the
way abapGit expects. The model covers these parts and proves properties of them:

- the file-name builder;
- the mapping of a class's attributes to the `VSEOCLASS` record;
- the three per-kind exporters;
- the dispatch loop of `checkout_objects`, including its policy for unsupported object types;
- the repository initialisation and the package loop of `package`.

Modules:

- `Wrappers`: `Option`, `Outcome` and a map lookup, which stands for fetching a program or interface by name.
- `Names`: ASCII lower-casing, the `/` join of paths, and `BuildFilename`.
- `ClassAttributes`: the class metadata and the `VSEOCLASS` record built from it.
- `CheckoutSpec`: every operation as a pure function from a `Snapshot` of the local
  side to a `Step`, which is the new snapshot and an outcome. A `Snapshot` holds the
  files (path to content), the existing directories and the lines written to the
  error stream. The SAP system is a value, `Server`, that maps object names to
  their texts. A missing name or a missing text is a fetch failure.
- `Checkout`: the class `Workspace`, whose fields `files`, `dirs` and `log` the
  methods update in place, as the source does. Each method is proved to leave
  exactly the state, and return exactly the outcome, that the `CheckoutSpec`
  function computes. `CheckoutObjects` and `Package` keep the loops of the source,
  `Package` with its `break`.
- `CheckoutProperties` and `PackageProperties`: what the exporters, the dispatch
  loop and the package command guarantee, stated over `CheckoutSpec`.

Error behaviour follows the source:

- A class whose metadata cannot be fetched fails before anything is written.
- A source text is read only after its file has been opened for writing, which
  truncates the file. So a text that cannot be read leaves an empty file behind,
  and the run fails.
- Opening a file fails when the directory it is written into does not exist. The
  model checks this for the destination directory an exporter is given; with the
  simplified path join every file name lies inside that directory (see
  the section "Left out" below for names that begin with `/` or hold an inner `/`).
- The first failing export ends `checkout_objects`, and with it `package`. An
  unsupported type only adds a line to the log.

## Model

| member | source | states |
|---|---|---|
| Names.Lower | sap/cli/checkout.py:25 | lower-casing keeps the length |
| Names.LowerSpec | sap/cli/checkout.py:25 | lower-casing yields a lower-case string; an upper-case letter becomes its lower-case letter, and every other character is kept |
| Names.LowerOfLowerCase | sap/cli/checkout.py:25 | a string with no upper-case letter is left unchanged |
| Names.LowerIdempotent | sap/cli/checkout.py:25 | lower-casing twice is lower-casing once |
| Names.LowerAppend | sap/cli/checkout.py:25 | lower-casing a concatenation lower-cases each part |
| Names.Join | sap/cli/checkout.py:28 | the joined path is the directory, one separator, then the leaf |
| Names.Place | sap/cli/checkout.py:27-28 | without a directory the name is the leaf; with one the result lies directly under that directory, unchanged in case, and ends with the leaf |
| Names.LowerJoinAll | sap/cli/checkout.py:183-184 | lower-casing the joined hierarchy equals joining the lower-cased segments |
| Names.BuildFilename | sap/cli/checkout.py:22-30 | the file name is the lower-cased object name, suffix, `.` and extension, placed under the directory when one is given |
| Names.BuildFilenameCaseInsensitive | sap/cli/checkout.py:25 | object names that differ only in letter case give the same file name |
| ClassAttributes.BuildClassAbapAttributes | sap/cli/checkout.py:51-67 | CLSNAME and DESCRIPT are copied; LANGU is the lookup of the master language; VERSION is `1` exactly when the class is active, else `0`; STATE is `0` exactly when modeled, else `1`; FIXPT is `X` exactly when fixed-point arithmetic is on, else a blank; CLSCCINCL and UNICODE are always `X` |
| ClassAttributes.AttributesDetermineClass | sap/cli/checkout.py:51-67 | two classes give the same record exactly when they agree on name, description, active state, modeled flag, fixed-point flag and looked-up language |
| CheckoutSpec.RepoDir | sap/cli/checkout.py:143-148 | the repository directory is the absolute path of the package name when no directory or an empty one is given, else of the given directory |
| CheckoutSpec.WrapFolder | sap/cli/checkout.py:153 | STARTING_FOLDER is the starting folder with one separator before and one after |
| CheckoutSpec.MetadataPath | sap/cli/checkout.py:155 | the metadata file is `.abapgit.xml` directly inside the repository directory |
| CheckoutSpec.DestDir | sap/cli/checkout.py:178-184 | the base directory for an empty hierarchy; the base joined with the lower-cased package for one level; the base joined with the lower-cased segments joined by `/` for one or more levels |
| CheckoutSpec.SourceCodeDir | sap/cli/checkout.py:173 | the source directory is the starting folder directly inside the repository directory |
| Checkout.Workspace.MakeDirs | sap/cli/checkout.py:132 | creating a directory adds it to the directories and changes nothing else |
| Checkout.Workspace.WriteFile | sap/cli/checkout.py:37 | opening a file in a missing directory fails and changes nothing; otherwise the file takes the new content |
| Checkout.Workspace.DownloadAbapSource | sap/cli/checkout.py:43-48 | the workspace and outcome are those of `CheckoutSpec.DownloadAbapSource` |
| Checkout.Workspace.DumpAttributesToFile | sap/cli/checkout.py:33-40 | the workspace and outcome are those of `CheckoutSpec.DumpAttributesToFile` |
| Checkout.Workspace.CheckoutClass | sap/cli/checkout.py:70-82 | the workspace and outcome are those of `CheckoutSpec.CheckoutClass` |
| Checkout.Workspace.CheckoutProgram | sap/cli/checkout.py:93-96 | the workspace and outcome are those of `CheckoutSpec.CheckoutProgram` |
| Checkout.Workspace.CheckoutInterface | sap/cli/checkout.py:107-110 | the workspace and outcome are those of `CheckoutSpec.CheckoutInterface` |
| Checkout.Workspace.CheckoutObjects | sap/cli/checkout.py:121-138 | the loop leaves the workspace and outcome that `CheckoutSpec.CheckoutObjects` computes, by the invariant that the rest of the run from the current state gives the whole run's result |
| Checkout.Workspace.MakeRepoDirForPackage | sap/cli/checkout.py:141-159 | returns the repository directory and leaves the workspace that `CheckoutSpec.MakeRepoDirForPackage` computes |
| Checkout.Workspace.Package | sap/cli/checkout.py:169-189 | the loop, with its `break` when not recursive, leaves the workspace and outcome that `CheckoutSpec.Package` computes |
| CheckoutProperties.DownloadAbapSourceEffect | sap/cli/checkout.py:43-48 | into an existing directory, exactly one file changes, `<lower name><suffix>.abap`; it holds the text when the text can be read, and is left empty with a fetch failure when it cannot |
| CheckoutProperties.CheckoutProgramEffect | sap/cli/checkout.py:93-96 | a program checkout writes exactly `<lower name>.prog.abap` holding the program's text; an unknown program leaves that file empty and fails |
| CheckoutProperties.CheckoutInterfaceEffect | sap/cli/checkout.py:107-110 | an interface checkout writes exactly `<lower name>.intf.abap` holding the interface's text; an unknown interface leaves that file empty and fails |
| CheckoutProperties.ObjectFilesDistinct | sap/cli/checkout.py:22-30 | two parts of one object with different suffixes go to different files |
| CheckoutProperties.ClassFilesDistinct | sap/cli/checkout.py:76-82 | the five files of a class have five different names |
| CheckoutProperties.ClassSourcesEffect | sap/cli/checkout.py:76-79 | the four sources of a fully fetchable class are written in order: main source, local definitions, local implementations, test classes, each under its lower-cased name |
| CheckoutProperties.CheckoutClassEffect | sap/cli/checkout.py:70-82 | a fully fetchable class adds exactly its five files, the four sources and the `LCL_OBJECT_CLAS` attribute record, and changes nothing else |
| CheckoutProperties.CheckoutClassFetchFails | sap/cli/checkout.py:73-74 | a class whose metadata cannot be fetched fails and writes nothing |
| CheckoutProperties.ClassSourcesStops | sap/cli/checkout.py:76-79 | the source downloads of a class with an unreadable text fail at the first unreadable one: the sources before it are written in order, its file is left empty, the later sources are not written, and the directories and log are unchanged |
| CheckoutProperties.ClassSourcesIncomplete | sap/cli/checkout.py:76-79 | the same, as the class's files before the run plus the partial file set: readable sources before the first unreadable one, that one empty |
| CheckoutProperties.CheckoutClassIncompleteFails | sap/cli/checkout.py:70-82 | a class with an unreadable text fails with exactly the partial file set added: the readable sources before the first unreadable one, that one empty, and no later source and no `.clas.xml` |
| CheckoutProperties.CheckoutClassConfined | sap/cli/checkout.py:70-82 | a class checkout into a directory changes files only inside that directory and never the directories or the log |
| CheckoutProperties.UnsupportedMembers | sap/cli/checkout.py:134-138 | an object is reported exactly when it is in the list and its type has no exporter |
| CheckoutProperties.DiagnosticsAppend | sap/cli/checkout.py:134-138 | the diagnostics of two lists in sequence are the diagnostics of the joined list |
| CheckoutProperties.DiagnosticsSingle | sap/cli/checkout.py:138 | one object gives the line `Unsupported object: <type> <name>` when its type has no exporter, and no line otherwise |
| CheckoutProperties.DiagnosticsCount | sap/cli/checkout.py:134-138 | the number of diagnostic lines is the number of objects with an unsupported type |
| CheckoutProperties.CheckoutObjectFrame | sap/cli/checkout.py:134-138 | one object changes no directory, adds exactly its diagnostic to the log and files only inside the directory; into an existing directory it fails only for a supported object that cannot be fetched |
| CheckoutProperties.CheckoutObjectEffect | sap/cli/checkout.py:134-138 | a fetchable object into an existing directory succeeds, writes exactly its exports and logs exactly its diagnostic |
| CheckoutProperties.CheckoutObjectPassIff | sap/cli/checkout.py:134-138 | into an existing directory, one object succeeds exactly when its export can be fetched |
| CheckoutProperties.CheckoutLoopPassIff | sap/cli/checkout.py:134-138 | into an existing directory, the loop succeeds exactly when every export can be fetched |
| CheckoutProperties.CheckoutLoopFrame | sap/cli/checkout.py:134-138 | the loop keeps the directories and changes files only inside the directory |
| CheckoutProperties.CheckoutLoopSucceeds | sap/cli/checkout.py:134-138 | with every export fetchable, the loop writes exactly the objects' files in list order, a later file at the same path replacing an earlier one, and logs their diagnostics in list order |
| CheckoutProperties.CheckoutLoopFailure | sap/cli/checkout.py:134-138 | a failing loop stopped at the first supported object that cannot be fetched, and logged the diagnostics of exactly the objects before it |
| CheckoutProperties.CheckoutLoopCons | sap/cli/checkout.py:134-136 | when the first object's step succeeds, the loop goes on with the rest from the state that step leaves |
| CheckoutProperties.CheckoutLoopStep | sap/cli/checkout.py:134-138 | a fetchable first object into an existing directory writes its files and its diagnostic, then the loop goes on with the rest |
| CheckoutProperties.CheckoutLoopSkip | sap/cli/checkout.py:134-138 | the fetchable objects before position k write exactly their files and log their diagnostics, and the loop goes on from k |
| CheckoutProperties.CheckoutLoopFirstFails | sap/cli/checkout.py:134-136 | a loop whose first object cannot be fetched ends with that object's step |
| CheckoutProperties.CheckoutLoopStopsAt | sap/cli/checkout.py:134-138 | the loop stops at the first object that cannot be fetched: the files and diagnostics of the objects before it remain, that object's export runs from there, and no later object writes or logs anything |
| CheckoutProperties.CheckoutObjectsStopsAt | sap/cli/checkout.py:121-138 | checkout_objects aborts at the first object that cannot be fetched, with the directory created and the earlier objects' files and diagnostics remaining |
| CheckoutProperties.CheckoutObjectsFrame | sap/cli/checkout.py:131-138 | afterwards the directory exists, no other directory is added, an existing directory is kept, and only files inside it change |
| CheckoutProperties.CheckoutObjectsPassIff | sap/cli/checkout.py:121-138 | checkout_objects succeeds exactly when every supported object can be fetched, whether or not the directory existed before |
| CheckoutProperties.CheckoutObjectsSucceeds | sap/cli/checkout.py:121-138 | with every export fetchable, checkout_objects writes exactly the objects' files, creates the directory, logs one line per unsupported object in list order, and the number of lines is the number of such objects |
| CheckoutProperties.CheckoutObjectsRerun | sap/cli/checkout.py:131-138 | checking the same objects out again into the now existing directory succeeds and leaves the same files and directories, each file overwritten at the same path |
| PackageProperties.RepoInitialised | sap/cli/checkout.py:141-159 | the repository directory exists afterwards and holds `.abapgit.xml` with the starting folder between separators; nothing else changes |
| PackageProperties.DestDirCaseInsensitive | sap/cli/checkout.py:180-184 | hierarchies that differ only in letter case share one directory |
| PackageProperties.DestDirExample | sap/cli/checkout.py:182-184 | the hierarchy `ZROOT`, `ZSUB` below `/repo/src` maps to `/repo/src/zroot/zsub` |
| PackageProperties.PackageNonRecursive | sap/cli/checkout.py:169-189 | without the recursive flag only the first visited package is checked out: the later visits make no difference, the run is the repository initialisation followed by checkout_objects into the first package's directory, and it succeeds exactly when that package's exports can be fetched |
| PackageProperties.PackageDirsCons | sap/cli/checkout.py:177-186 | the directories of a list of visits are the first visit's directory and those of the rest |
| PackageProperties.PackageWrittenCons | sap/cli/checkout.py:177-186 | the files of the first visit and then the rest are the files of all visits |
| PackageProperties.PackageDiagnosticsCons | sap/cli/checkout.py:177-186 | the diagnostics of the first visit and then the rest are the diagnostics of all visits |
| PackageProperties.PackageLoopCons | sap/cli/checkout.py:177-189 | a recursive run whose first visit succeeds goes on with the rest of the visits from the state that visit leaves |
| PackageProperties.PackageLoopSucceeds | sap/cli/checkout.py:177-189 | a recursive loop over fetchable visits writes every visit's files into its directory, creates those directories, and logs the diagnostics of all visits in order |
| PackageProperties.PackageRecursiveSucceeds | sap/cli/checkout.py:169-189 | with the recursive flag and every visit fetchable, package succeeds, with the files, directories and log of every visit after the repository initialisation |
| PackageProperties.PackageLoopStopsAt | sap/cli/checkout.py:177-189 | a recursive loop stops at the first visit whose exports cannot all be fetched: the earlier visits' files, directories and log lines, then that visit's checkout_objects, and nothing from later visits |
| PackageProperties.PackageRecursiveStopsAt | sap/cli/checkout.py:169-189 | a recursive package run stops the same way after the repository initialisation, leaving the earlier visits' files on disk |
| PackageProperties.PackageLoopPassIff | sap/cli/checkout.py:177-189 | a recursive loop succeeds exactly when every visit's exports can be fetched |
| PackageProperties.PackageRecursivePassIff | sap/cli/checkout.py:169-189 | with the recursive flag, package succeeds exactly when every visited package's exports can be fetched; unsupported types never make it fail |

## Left out

- The walk over a package's sub-packages (`sap.adt.package.walk`) is not modelled. The visits are an input sequence of (hierarchy, objects) pairs, and nothing is claimed about their order.
- The network is not modelled: fetching classes, programs and interfaces. Their texts and metadata are the given `Server` value. A missing name or text stands for a failing fetch. The contents of the visited packages, which the source browses with `sap.adt.package.walk` (sap/cli/checkout.py:177), are the `visits` input of `Package`, and that walk cannot fail in the model.
- PackageProperties.PackageRecursivePassIff: a failing package fetch during the walk (a missing root package, or a sub-package that cannot be browsed partway through) is not modelled. In the source that error escapes `package` after `.abapgit.xml` and the earlier visits' files are written. This lemma, `PackageLoopPassIff` and the outcome clause of `PackageNonRecursive` state "succeeds exactly when" only for a walk that does not fail.
- XML serialisation (`XMLWriter`, `to_xml`, `DOT_ABAP_GIT`) is not modelled. A written record is stored as an opaque value: `ClassXml` carries the serialiser name and the `VSEOCLASS` record, and `RepoXml` carries only the `STARTING_FOLDER` value (the other fields that `DOT_ABAP_GIT.for_new_repo` fills are not modelled).
- `iso_code_to_sap_code` is not part of this model. It is a function-valued parameter of `Env`, and so is `os.path.abspath`.
- Filesystem details are not modelled:
  - `os.path.join` is `dir + "/" + leaf`, without the reset at an absolute segment and without normalisation;
  - `os.makedirs` always succeeds, and creating the parent directories is not modelled;
  - `abspath` is an uninterpreted function.
- Names.Lower: covers ASCII letters only. Python's `str.lower` also lower-cases non-ASCII letters.
- Names.Join: an object or package name that begins with `/`, as ABAP namespaces do (`/NS/P`), is joined as `dir//ns/p...`. `os.path.join` restarts at such a segment, so the source writes that file outside the destination directory, or fails when `/ns` does not exist. The confinement and success lemmas `CheckoutClassConfined`, `CheckoutObjectFrame`, `CheckoutLoopFrame`, `CheckoutObjectsFrame`, `CheckoutObjectPassIff`, `CheckoutLoopPassIff`, `CheckoutObjectsPassIff`, `PackageLoopPassIff` and `PackageRecursivePassIff` hold for such names only because of the simplified join. The model also does not require the directory of a name with an inner `/` to exist.
- The error stream is a sequence of lines in the snapshot.
- The command wrappers `abapclass`, `program` and `interface` (lines 85-118) are not modelled, and neither are the command-group decorators.
- A `KeyError` raised inside an exporter is not modelled. The source's `except KeyError` would report such an object as unsupported; the model treats an exporter failure as ending the run and reports only a type missing from the dispatch table.
- The default `destdir=None` of `checkout_objects` is not modelled. `os.path.isdir(None)` raises a `TypeError`, and the only caller passes a directory, so `CheckoutObjects` takes a directory string.
- Each exporter fails at the first text that cannot be read. The model does not distinguish the kinds of exceptions a failing fetch or write raises; both are a `Failure` value.
- `test/unit/mock.py` is not part of this model. It is a test double for the connection.
