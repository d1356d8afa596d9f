/**
 * The checkout commands as they run: a workspace object holding the local
 * files, directories and error stream, updated in place by each write,
 * directory creation and diagnostic. Every method is proved to leave the
 * workspace in the snapshot, and to return the outcome, that CheckoutSpec
 * computes for it.
 */
module Checkout {
  import opened Wrappers
  import opened Names
  import opened ClassAttributes
  import opened CheckoutSpec

  class Workspace {
    var files: map<string, Content>
    var dirs: set<string>
    var log: seq<string>

    /** The workspace as a value. */
    function State(): Snapshot
      reads this
    {
      Snapshot(files, dirs, log)
    }

    constructor (s: Snapshot)
      ensures State() == s
    {
      files, dirs, log := s.files, s.dirs, s.log;
    }

    /** os.makedirs. */
    method MakeDirs(d: string)
      modifies this
      ensures State() == old(State()).(dirs := old(dirs) + {d})
    {
      dirs := dirs + {d};
    }

    /** open(path, 'w') and a write of c. */
    method WriteFile(destdir: Option<string>, path: string, c: Content) returns (o: Outcome<Failure>)
      modifies this
      ensures Step(State(), o) == CheckoutSpec.WriteFile(old(State()), destdir, path, c)
    {
      if destdir.Some? && destdir.value !in dirs {
        return Fail(CannotOpen(path));
      }
      files := files[path := c];
      o := Pass;
    }

    method DownloadAbapSource(name: string, body: Option<string>, typsfx: string, destdir: Option<string>) returns (o: Outcome<Failure>)
      modifies this
      ensures Step(State(), o) == CheckoutSpec.DownloadAbapSource(old(State()), name, body, typsfx, destdir)
    {
      var filename := BuildFilename(name, typsfx, "abap", destdir);
      o := WriteFile(destdir, filename, Text(""));
      if o.Fail? {
        return;
      }
      if body.None? {
        return Fail(FetchFailed(name));
      }
      files := files[filename := Text(body.value)];
    }

    method DumpAttributesToFile(name: string, attrs: Vseoclass, typsfx: string, serializer: string, destdir: Option<string>) returns (o: Outcome<Failure>)
      modifies this
      ensures Step(State(), o) == CheckoutSpec.DumpAttributesToFile(old(State()), name, attrs, typsfx, serializer, destdir)
    {
      var filename := BuildFilename(name, typsfx, "xml", destdir);
      o := WriteFile(destdir, filename, ClassXml(serializer, attrs));
    }

    method CheckoutClass(env: Env, name: string, destdir: Option<string>) returns (o: Outcome<Failure>)
      modifies this
      ensures Step(State(), o) == CheckoutSpec.CheckoutClass(old(State()), env, name, destdir)
    {
      if name !in env.server.classes {
        return Fail(FetchFailed(name));
      }
      var clas := env.server.classes[name];
      o := DownloadAbapSource(name, clas.main, ".clas", destdir);
      if o.Fail? { return; }
      o := DownloadAbapSource(name, clas.definitions, ".clas.locals_def", destdir);
      if o.Fail? { return; }
      o := DownloadAbapSource(name, clas.implementations, ".clas.locals_imp", destdir);
      if o.Fail? { return; }
      o := DownloadAbapSource(name, clas.testClasses, ".clas.testclasses", destdir);
      if o.Fail? { return; }
      var vseoclass := BuildClassAbapAttributes(clas.info, env.isoToSap);
      o := DumpAttributesToFile(name, vseoclass, ".clas", ClassSerializer, destdir);
    }

    method CheckoutProgram(env: Env, name: string, destdir: Option<string>) returns (o: Outcome<Failure>)
      modifies this
      ensures Step(State(), o) == CheckoutSpec.CheckoutProgram(old(State()), env, name, destdir)
    {
      o := DownloadAbapSource(name, Get(env.server.programs, name), ".prog", destdir);
    }

    method CheckoutInterface(env: Env, name: string, destdir: Option<string>) returns (o: Outcome<Failure>)
      modifies this
      ensures Step(State(), o) == CheckoutSpec.CheckoutInterface(old(State()), env, name, destdir)
    {
      o := DownloadAbapSource(name, Get(env.server.interfaces, name), ".intf", destdir);
    }

    /**
     * checkout_objects: creates destdir when it is absent, then exports the
     * objects in order; an object whose type has no exporter gets one
     * diagnostic line, and the first failing export ends the run.
     */
    method CheckoutObjects(env: Env, objects: seq<ObjectRef>, destdir: string) returns (o: Outcome<Failure>)
      modifies this
      ensures Step(State(), o) == CheckoutSpec.CheckoutObjects(old(State()), env, objects, destdir)
    {
      if destdir !in dirs {
        MakeDirs(destdir);
      }
      var i := 0;
      while i < |objects|
        invariant 0 <= i <= |objects|
        invariant CheckoutSpec.CheckoutObjects(old(State()), env, objects, destdir)
               == CheckoutLoop(State(), env, objects[i..], destdir)
      {
        var obj := objects[i];
        assert objects[i..][0] == obj && objects[i..][1..] == objects[i + 1..];
        ghost var before := State();
        if obj.typ in Checkouters {
          match Checkouters[obj.typ] {
            case Program => o := CheckoutProgram(env, obj.name, Some(destdir));
            case Class => o := CheckoutClass(env, obj.name, Some(destdir));
            case Interface => o := CheckoutInterface(env, obj.name, Some(destdir));
          }
        } else {
          log := log + [UnsupportedLine(obj)];
          o := Pass;
        }
        assert Step(State(), o) == CheckoutObject(before, env, obj, destdir);
        if o.Fail? {
          return;
        }
        i := i + 1;
      }
      o := Pass;
    }

    /** make_repo_dir_for_package. */
    method MakeRepoDirForPackage(args: PackageArgs, abspath: string -> string) returns (repoDir: string)
      modifies this
      ensures RepoInit(State(), repoDir) == CheckoutSpec.MakeRepoDirForPackage(old(State()), args, abspath)
    {
      repoDir := args.name;
      if args.directory.Some? && args.directory.value != "" {
        repoDir := args.directory.value;
      }
      repoDir := abspath(repoDir);
      if repoDir !in dirs {
        MakeDirs(repoDir);
      }
      var o := WriteFile(Some(repoDir), MetadataPath(repoDir), RepoXml(WrapFolder(args.startingFolder)));
    }

    /**
     * package: initialises the repository directory, then checks out the
     * objects of each visited package into the directory of its hierarchy,
     * stopping after the first package unless recursive.
     */
    method Package(env: Env, args: PackageArgs, visits: seq<Visit>) returns (o: Outcome<Failure>)
      modifies this
      ensures Step(State(), o) == CheckoutSpec.Package(old(State()), env, args, visits)
    {
      var repoDir := MakeRepoDirForPackage(args, env.abspath);
      var sourceCodeDir := SourceCodeDir(repoDir, args.startingFolder);
      o := Pass;
      var i := 0;
      while i < |visits|
        invariant 0 <= i <= |visits|
        invariant o == Pass
        invariant CheckoutSpec.Package(old(State()), env, args, visits)
               == PackageLoop(State(), env, visits[i..], sourceCodeDir, args.recursive)
      {
        assert visits[i..][0] == visits[i] && visits[i..][1..] == visits[i + 1..];
        var destdir := DestDir(env.abspath(sourceCodeDir), visits[i].hierarchy);
        o := CheckoutObjects(env, visits[i].objects, destdir);
        if o.Fail? {
          return;
        }
        if !args.recursive {
          break;
        }
        i := i + 1;
      }
    }
  }
}
