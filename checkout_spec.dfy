/**
 * The checkout orchestration as functions over a snapshot of the local side:
 * the files written (path to content), the directories that exist and the
 * lines printed to the error stream. Every operation returns the new snapshot
 * together with its outcome; a `Fail` outcome stands for the exception that
 * aborts the run, with everything written before it left in place.
 */
module CheckoutSpec {
  import opened Wrappers
  import opened Names
  import opened ClassAttributes

  /** An object listed in a package: its type tag (e.g. "CLAS/OC") and name. */
  datatype ObjectRef = ObjectRef(typ: string, name: string)

  /** One package yielded by the package walk: its name hierarchy and its objects. */
  datatype Visit = Visit(hierarchy: seq<string>, objects: seq<ObjectRef>)

  /**
   * A class as the server returns it: its attributes (clas.fetch()) and its
   * four text bodies, each None when reading it fails.
   */
  datatype ClassObject = ClassObject(
    info: ClassInfo,
    main: Option<string>,
    definitions: Option<string>,
    implementations: Option<string>,
    testClasses: Option<string>)

  /**
   * What the connection can fetch, by object name. A name absent from a map
   * cannot be fetched.
   */
  datatype Server = Server(
    classes: map<string, ClassObject>,
    programs: map<string, string>,
    interfaces: map<string, string>)

  /**
   * The collaborators: the connection's server, the language-code lookup
   * and os.path.abspath.
   */
  datatype Env = Env(server: Server, isoToSap: string -> string, abspath: string -> string)

  /** What a file holds: a source text or an (opaque) XML serialisation of a record. */
  datatype Content =
    | Text(text: string)
    | ClassXml(serializer: string, attributes: Vseoclass)
    | RepoXml(startingFolder: string)

  datatype Failure =
    | FetchFailed(objectName: string)   // any error of the remote protocol client
    | CannotOpen(path: string)          // open() into a directory that does not exist

  /** The local side: files by path, existing directories, the error-stream lines. */
  datatype Snapshot = Snapshot(files: map<string, Content>, dirs: set<string>, log: seq<string>)

  datatype Step = Step(state: Snapshot, outcome: Outcome<Failure>)

  datatype Kind = Program | Class | Interface

  /** The dispatch table of checkout_objects. */
  const Checkouters: map<string, Kind> := map["PROG/P" := Program, "CLAS/OC" := Class, "INTF/OI" := Interface]

  /** The serializer name the class metadata file is written with. */
  const ClassSerializer: string := "LCL_OBJECT_CLAS"

  /** The diagnostic line for an object whose type has no exporter. */
  function UnsupportedLine(obj: ObjectRef): string {
    "Unsupported object: " + obj.typ + " " + obj.name
  }

  /** open(path, 'w') followed by a write of c. */
  function WriteFile(s: Snapshot, destdir: Option<string>, path: string, c: Content): Step {
    if destdir.Some? && destdir.value !in s.dirs then Step(s, Fail(CannotOpen(path)))
    else Step(s.(files := s.files[path := c]), Pass)
  }

  /**
   * download_abap_source: the file is opened (and so truncated) before the
   * text is read, so a failing read leaves it empty.
   */
  function DownloadAbapSource(s: Snapshot, name: string, body: Option<string>, typsfx: string, destdir: Option<string>): Step {
    var path := BuildFilename(name, typsfx, "abap", destdir);
    var truncated := WriteFile(s, destdir, path, Text(""));
    if truncated.outcome.Fail? then truncated
    else if body.None? then Step(truncated.state, Fail(FetchFailed(name)))
    else Step(truncated.state.(files := truncated.state.files[path := Text(body.value)]), Pass)
  }

  /** dump_attributes_to_file. */
  function DumpAttributesToFile(s: Snapshot, name: string, attrs: Vseoclass, typsfx: string, serializer: string, destdir: Option<string>): Step {
    WriteFile(s, destdir, BuildFilename(name, typsfx, "xml", destdir), ClassXml(serializer, attrs))
  }

  /** The four download_abap_source calls of checkout_class, in order, stopping at the first failure. */
  function ClassSources(s: Snapshot, name: string, clas: ClassObject, destdir: Option<string>): Step {
    var s1 := DownloadAbapSource(s, name, clas.main, ".clas", destdir);
    if s1.outcome.Fail? then s1 else
    var s2 := DownloadAbapSource(s1.state, name, clas.definitions, ".clas.locals_def", destdir);
    if s2.outcome.Fail? then s2 else
    var s3 := DownloadAbapSource(s2.state, name, clas.implementations, ".clas.locals_imp", destdir);
    if s3.outcome.Fail? then s3 else
    DownloadAbapSource(s3.state, name, clas.testClasses, ".clas.testclasses", destdir)
  }

  /** checkout_class: fetch, four sources, then the attribute file. */
  function CheckoutClass(s: Snapshot, env: Env, name: string, destdir: Option<string>): Step {
    if name !in env.server.classes then Step(s, Fail(FetchFailed(name)))
    else
      var clas := env.server.classes[name];
      var sources := ClassSources(s, name, clas, destdir);
      if sources.outcome.Fail? then sources else
      DumpAttributesToFile(sources.state, name, BuildClassAbapAttributes(clas.info, env.isoToSap), ".clas", ClassSerializer, destdir)
  }

  /** checkout_program. */
  function CheckoutProgram(s: Snapshot, env: Env, name: string, destdir: Option<string>): Step {
    DownloadAbapSource(s, name, Get(env.server.programs, name), ".prog", destdir)
  }

  /** checkout_interface. */
  function CheckoutInterface(s: Snapshot, env: Env, name: string, destdir: Option<string>): Step {
    DownloadAbapSource(s, name, Get(env.server.interfaces, name), ".intf", destdir)
  }

  /** One iteration of checkout_objects' loop: dispatch, or report the unsupported type. */
  function CheckoutObject(s: Snapshot, env: Env, obj: ObjectRef, destdir: string): Step {
    if obj.typ !in Checkouters then Step(s.(log := s.log + [UnsupportedLine(obj)]), Pass)
    else match Checkouters[obj.typ]
      case Program => CheckoutProgram(s, env, obj.name, Some(destdir))
      case Class => CheckoutClass(s, env, obj.name, Some(destdir))
      case Interface => CheckoutInterface(s, env, obj.name, Some(destdir))
  }

  /** The loop of checkout_objects over the remaining objects. */
  function CheckoutLoop(s: Snapshot, env: Env, objects: seq<ObjectRef>, destdir: string): Step
    decreases |objects|
  {
    if objects == [] then Step(s, Pass)
    else
      var r := CheckoutObject(s, env, objects[0], destdir);
      if r.outcome.Fail? then r else CheckoutLoop(r.state, env, objects[1..], destdir)
  }

  /** checkout_objects: create destdir when absent, then the loop. */
  function CheckoutObjects(s: Snapshot, env: Env, objects: seq<ObjectRef>, destdir: string): Step {
    var s0 := if destdir in s.dirs then s else s.(dirs := s.dirs + {destdir});
    CheckoutLoop(s0, env, objects, destdir)
  }

  /** The arguments of the package command. */
  datatype PackageArgs = PackageArgs(name: string, directory: Option<string>, startingFolder: string, recursive: bool)

  /** The repository directory: the given directory, or the package name when none (or an empty one) is given. */
  function RepoDir(args: PackageArgs, abspath: string -> string): (r: string)
    ensures (args.directory.None? || args.directory.value == "") ==> r == abspath(args.name)
    ensures (args.directory.Some? && args.directory.value != "") ==> r == abspath(args.directory.value)
  {
    var dir := if args.directory.None? || args.directory.value == "" then args.name else args.directory.value;
    abspath(dir)
  }

  /** The STARTING_FOLDER value of the repository metadata. */
  function WrapFolder(folder: string): (r: string)
    ensures |r| == |folder| + 2 && r[0] == Sep && r[|r| - 1] == Sep
    ensures r[1..|r| - 1] == folder
  {
    [Sep] + folder + [Sep]
  }

  /** The repository metadata file of a repository directory. */
  function MetadataPath(repoDir: string): (r: string)
    ensures Under(repoDir, r) && r[|repoDir| + 1..] == ".abapgit.xml"
  {
    Join(repoDir, ".abapgit.xml")
  }

  datatype RepoInit = RepoInit(state: Snapshot, repoDir: string)

  /** make_repo_dir_for_package. */
  function MakeRepoDirForPackage(s: Snapshot, args: PackageArgs, abspath: string -> string): RepoInit {
    var repoDir := RepoDir(args, abspath);
    var s0 := if repoDir in s.dirs then s else s.(dirs := s.dirs + {repoDir});
    RepoInit(WriteFile(s0, Some(repoDir), MetadataPath(repoDir), RepoXml(WrapFolder(args.startingFolder))).state, repoDir)
  }

  /**
   * The destination directory of a visited package: the lower-cased
   * hierarchy below base; the base itself for an empty hierarchy.
   */
  function DestDir(base: string, hierarchy: seq<string>): (r: string)
    ensures |hierarchy| == 0 ==> r == base
    ensures |hierarchy| == 1 ==> r == Join(base, Lower(hierarchy[0]))
    ensures |hierarchy| >= 1 ==> r == Join(base, JoinAll(LowerAll(hierarchy)))
  {
    LowerJoinAll(hierarchy);
    if |hierarchy| == 1 then Join(base, Lower(hierarchy[0]))
    else if |hierarchy| > 1 then Join(base, Lower(JoinAll(hierarchy)))
    else base
  }

  /** The loop of package over the remaining visits, stopping after the first when not recursive. */
  function PackageLoop(s: Snapshot, env: Env, visits: seq<Visit>, sourceCodeDir: string, recursive: bool): Step
    decreases |visits|
  {
    if visits == [] then Step(s, Pass)
    else
      var destdir := DestDir(env.abspath(sourceCodeDir), visits[0].hierarchy);
      var r := CheckoutObjects(s, env, visits[0].objects, destdir);
      if r.outcome.Fail? || !recursive then r
      else PackageLoop(r.state, env, visits[1..], sourceCodeDir, recursive)
  }

  /** The source directory: the starting folder inside the repository directory. */
  function SourceCodeDir(repoDir: string, startingFolder: string): (r: string)
    ensures Under(repoDir, r) && r[|repoDir| + 1..] == startingFolder
  {
    Join(repoDir, startingFolder)
  }

  /** package: initialise the repository, then check out the visited packages. */
  function Package(s: Snapshot, env: Env, args: PackageArgs, visits: seq<Visit>): Step {
    var init := MakeRepoDirForPackage(s, args, env.abspath);
    PackageLoop(init.state, env, visits, SourceCodeDir(init.repoDir, args.startingFolder), args.recursive)
  }
}
