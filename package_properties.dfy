/**
 * What the package command guarantees: the repository it initialises, the
 * directory each visited package is checked out into, and the recursion
 * policy (the first visited package only, or every visited package).
 */
module PackageProperties {
  import opened Wrappers
  import opened Names
  import opened CheckoutSpec
  import opened CheckoutProperties

  /** The objects of all visits, in visiting order. */
  function AllObjects(visits: seq<Visit>): seq<ObjectRef>
    decreases |visits|
  {
    if visits == [] then [] else visits[0].objects + AllObjects(visits[1..])
  }

  predicate VisitsFetchable(server: Server, visits: seq<Visit>) {
    forall i :: 0 <= i < |visits| ==> AllFetchable(server, visits[i].objects)
  }

  /** The files the visits' exports leave, a later file replacing an earlier one at the same path. */
  function PackageWritten(env: Env, visits: seq<Visit>, base: string): map<string, Content>
    requires VisitsFetchable(env.server, visits)
    decreases |visits|
  {
    if visits == [] then map[]
    else Written(env, visits[0].objects, DestDir(base, visits[0].hierarchy)) + PackageWritten(env, visits[1..], base)
  }

  /** The destination directories of the visits. */
  function PackageDirs(visits: seq<Visit>, base: string): set<string> {
    set i | 0 <= i < |visits| :: DestDir(base, visits[i].hierarchy)
  }

  /**
   * The repository is initialised in the given directory, or in the package
   * name when none is given: the directory exists afterwards and holds
   * `.abapgit.xml` recording the starting folder between separators; nothing
   * else changes.
   */
  lemma RepoInitialised(s: Snapshot, args: PackageArgs, abspath: string -> string)
    ensures var r := MakeRepoDirForPackage(s, args, abspath);
      var folder := r.state.files[MetadataPath(r.repoDir)].startingFolder;
      && r.repoDir == RepoDir(args, abspath)
      && r.state.dirs == s.dirs + {r.repoDir}
      && r.state.log == s.log
      && r.state.files == s.files[MetadataPath(r.repoDir) := RepoXml(WrapFolder(args.startingFolder))]
      && folder[0] == Sep && folder[|folder| - 1] == Sep && folder[1..|folder| - 1] == args.startingFolder
  {
  }

  /** Package hierarchies that differ only in letter case share one directory. */
  lemma DestDirCaseInsensitive(base: string, h1: seq<string>, h2: seq<string>)
    requires LowerAll(h1) == LowerAll(h2)
    ensures DestDir(base, h1) == DestDir(base, h2)
  {
  }

  /** A two-level hierarchy is the lower-cased path of both packages below the base. */
  lemma DestDirExample()
    ensures DestDir("/repo/src", ["ZROOT", "ZSUB"]) == "/repo/src/zroot/zsub"
  {
    var h := ["ZROOT", "ZSUB"];
    assert Lower(h[0]) == "zroot" by { LowerSpec(h[0]); }
    assert Lower(h[1]) == "zsub" by { LowerSpec(h[1]); }
    assert LowerAll(h) == ["zroot", "zsub"];
    assert JoinAll(["zroot", "zsub"]) == "zroot/zsub" by {
      assert ["zroot", "zsub"][1..] == ["zsub"];
    }
  }

  /**
   * Without the recursive flag only the first visited package is checked
   * out: the later visits make no difference, and the run is the repository
   * initialisation followed by checkout_objects of the first package into the
   * directory of its hierarchy. It succeeds exactly when that package's
   * exports can be fetched.
   */
  lemma PackageNonRecursive(s: Snapshot, env: Env, args: PackageArgs, visits: seq<Visit>)
    requires !args.recursive && |visits| >= 1
    ensures Package(s, env, args, visits) == Package(s, env, args, visits[..1])
    ensures var init := MakeRepoDirForPackage(s, args, env.abspath);
      Package(s, env, args, visits)
      == CheckoutObjects(init.state, env, visits[0].objects, DestDir(env.abspath(SourceCodeDir(RepoDir(args, env.abspath), args.startingFolder)), visits[0].hierarchy))
    ensures Package(s, env, args, visits).outcome.Pass? <==> AllFetchable(env.server, visits[0].objects)
  {
    var init := MakeRepoDirForPackage(s, args, env.abspath);
    assert visits[..1][0] == visits[0];
    CheckoutObjectsPassIff(init.state, env, visits[0].objects,
      DestDir(env.abspath(SourceCodeDir(RepoDir(args, env.abspath), args.startingFolder)), visits[0].hierarchy));
  }

  lemma PackageDirsCons(visits: seq<Visit>, base: string)
    requires visits != []
    ensures PackageDirs(visits, base) == {DestDir(base, visits[0].hierarchy)} + PackageDirs(visits[1..], base)
  {
    var rest := visits[1..];
    forall d | d in PackageDirs(visits, base) ensures d in {DestDir(base, visits[0].hierarchy)} + PackageDirs(rest, base) {
      var i :| 0 <= i < |visits| && d == DestDir(base, visits[i].hierarchy);
      if i > 0 { assert visits[i] == rest[i - 1]; }
    }
    forall d | d in PackageDirs(rest, base) ensures d in PackageDirs(visits, base) {
      var i :| 0 <= i < |rest| && d == DestDir(base, rest[i].hierarchy);
      assert rest[i] == visits[i + 1];
    }
  }

  lemma VisitsFetchableTail(server: Server, visits: seq<Visit>)
    requires visits != [] && VisitsFetchable(server, visits)
    ensures VisitsFetchable(server, visits[1..])
  {
    var rest := visits[1..];
    assert forall i :: 0 <= i < |rest| ==> rest[i] == visits[i + 1];
  }

  /** The files of the first visit and then the rest are the files of all visits. */
  lemma PackageWrittenCons(files: map<string, Content>, env: Env, visits: seq<Visit>, base: string)
    requires visits != [] && VisitsFetchable(env.server, visits) && VisitsFetchable(env.server, visits[1..])
    ensures (files + Written(env, visits[0].objects, DestDir(base, visits[0].hierarchy))) + PackageWritten(env, visits[1..], base)
         == files + PackageWritten(env, visits, base)
  {
    MapUnionAssoc(files, Written(env, visits[0].objects, DestDir(base, visits[0].hierarchy)), PackageWritten(env, visits[1..], base));
  }

  /** The diagnostics of the first visit and then the rest are the diagnostics of all visits. */
  lemma PackageDiagnosticsCons(log: seq<string>, visits: seq<Visit>)
    requires visits != []
    ensures (log + Diagnostics(visits[0].objects)) + Diagnostics(AllObjects(visits[1..])) == log + Diagnostics(AllObjects(visits))
  {
    assert AllObjects(visits) == visits[0].objects + AllObjects(visits[1..]);
    DiagnosticsAppend(visits[0].objects, AllObjects(visits[1..]));
  }

  /** A recursive run whose first visit succeeds goes on with the rest from the state that visit leaves. */
  lemma PackageLoopCons(s: Snapshot, env: Env, visits: seq<Visit>, sourceCodeDir: string)
    requires visits != []
    requires CheckoutObjects(s, env, visits[0].objects, DestDir(env.abspath(sourceCodeDir), visits[0].hierarchy)).outcome.Pass?
    ensures PackageLoop(s, env, visits, sourceCodeDir, true)
         == PackageLoop(CheckoutObjects(s, env, visits[0].objects, DestDir(env.abspath(sourceCodeDir), visits[0].hierarchy)).state,
                        env, visits[1..], sourceCodeDir, true)
  {
  }

  lemma {:induction false} PackageLoopSucceeds(s: Snapshot, env: Env, visits: seq<Visit>, sourceCodeDir: string)
    requires VisitsFetchable(env.server, visits)
    ensures var base := env.abspath(sourceCodeDir);
      PackageLoop(s, env, visits, sourceCodeDir, true)
      == Step(Snapshot(s.files + PackageWritten(env, visits, base), s.dirs + PackageDirs(visits, base),
                       s.log + Diagnostics(AllObjects(visits))), Pass)
    decreases |visits|
  {
    var base := env.abspath(sourceCodeDir);
    if visits == [] {
      assert s.files + map[] == s.files;
      assert PackageDirs(visits, base) == {};
      assert s.dirs + {} == s.dirs;
    } else {
      var destdir := DestDir(base, visits[0].hierarchy);
      CheckoutObjectsSucceeds(s, env, visits[0].objects, destdir);
      VisitsFetchableTail(env.server, visits);
      PackageLoopCons(s, env, visits, sourceCodeDir);
      var r := CheckoutObjects(s, env, visits[0].objects, destdir);
      PackageLoopSucceeds(r.state, env, visits[1..], sourceCodeDir);
      PackageWrittenCons(s.files, env, visits, base);
      PackageDirsCons(visits, base);
      PackageDiagnosticsCons(s.log, visits);
    }
  }

  /**
   * A recursive run stops at the first visit whose exports cannot all be
   * fetched: the visits before it have left their files, directories and log
   * lines, that visit's checkout_objects ends the run, and no later visit is
   * checked out.
   */
  lemma {:induction false} PackageLoopStopsAt(s: Snapshot, env: Env, visits: seq<Visit>, sourceCodeDir: string, k: int)
    requires 0 <= k < |visits| && VisitsFetchable(env.server, visits[..k]) && !AllFetchable(env.server, visits[k].objects)
    ensures var base := env.abspath(sourceCodeDir);
      PackageLoop(s, env, visits, sourceCodeDir, true)
      == CheckoutObjects(Snapshot(s.files + PackageWritten(env, visits[..k], base), s.dirs + PackageDirs(visits[..k], base),
                                  s.log + Diagnostics(AllObjects(visits[..k]))),
                         env, visits[k].objects, DestDir(base, visits[k].hierarchy))
    decreases k
  {
    var base := env.abspath(sourceCodeDir);
    var destdir := DestDir(base, visits[0].hierarchy);
    if k == 0 {
      assert visits[..0] == [];
      assert s.files + map[] == s.files;
      assert PackageDirs([], base) == {};
      assert s.dirs + {} == s.dirs;
      assert s == Snapshot(s.files, s.dirs, s.log + []);
      CheckoutObjectsPassIff(s, env, visits[0].objects, destdir);
    } else {
      var prefix := visits[..k];
      var rest := visits[1..];
      assert prefix[0] == visits[0];
      assert prefix[1..] == rest[..k - 1];
      assert rest[k - 1] == visits[k];
      VisitsFetchableTail(env.server, prefix);
      CheckoutObjectsSucceeds(s, env, visits[0].objects, destdir);
      PackageLoopCons(s, env, visits, sourceCodeDir);
      var r := CheckoutObjects(s, env, visits[0].objects, destdir);
      assert r.state == Snapshot(s.files + Written(env, visits[0].objects, destdir), s.dirs + {destdir}, s.log + Diagnostics(visits[0].objects));
      PackageLoopStopsAt(r.state, env, rest, sourceCodeDir, k - 1);
      PackageWrittenCons(s.files, env, prefix, base);
      PackageDirsCons(prefix, base);
      assert (s.dirs + {destdir}) + PackageDirs(prefix[1..], base) == s.dirs + PackageDirs(prefix, base);
      PackageDiagnosticsCons(s.log, prefix);
    }
  }

  /**
   * With the recursive flag, a run stops at the first visited package whose
   * exports cannot all be fetched: the repository is initialised, the earlier
   * visits are checked out in full, that package's checkout_objects ends the
   * run, and the later visits are never checked out.
   */
  lemma PackageRecursiveStopsAt(s: Snapshot, env: Env, args: PackageArgs, visits: seq<Visit>, k: int)
    requires args.recursive
    requires 0 <= k < |visits| && VisitsFetchable(env.server, visits[..k]) && !AllFetchable(env.server, visits[k].objects)
    ensures var init := MakeRepoDirForPackage(s, args, env.abspath).state;
      var base := env.abspath(SourceCodeDir(RepoDir(args, env.abspath), args.startingFolder));
      Package(s, env, args, visits)
      == CheckoutObjects(Snapshot(init.files + PackageWritten(env, visits[..k], base), init.dirs + PackageDirs(visits[..k], base),
                                  init.log + Diagnostics(AllObjects(visits[..k]))),
                         env, visits[k].objects, DestDir(base, visits[k].hierarchy))
  {
    var init := MakeRepoDirForPackage(s, args, env.abspath);
    PackageLoopStopsAt(init.state, env, visits, SourceCodeDir(init.repoDir, args.startingFolder), k);
  }

  /**
   * With the recursive flag, when every visited package's exports can be
   * fetched, the run succeeds: every visited package's objects are written
   * into the directory of its hierarchy, each such directory exists, and the
   * log holds one line per unsupported object over all visits, in order.
   */
  lemma PackageRecursiveSucceeds(s: Snapshot, env: Env, args: PackageArgs, visits: seq<Visit>)
    requires args.recursive && VisitsFetchable(env.server, visits)
    ensures var init := MakeRepoDirForPackage(s, args, env.abspath).state;
      var base := env.abspath(SourceCodeDir(RepoDir(args, env.abspath), args.startingFolder));
      Package(s, env, args, visits)
      == Step(Snapshot(init.files + PackageWritten(env, visits, base), init.dirs + PackageDirs(visits, base),
                       init.log + Diagnostics(AllObjects(visits))), Pass)
  {
    var init := MakeRepoDirForPackage(s, args, env.abspath);
    PackageLoopSucceeds(init.state, env, visits, SourceCodeDir(init.repoDir, args.startingFolder));
  }

  lemma {:induction false} PackageLoopPassIff(s: Snapshot, env: Env, visits: seq<Visit>, sourceCodeDir: string)
    ensures PackageLoop(s, env, visits, sourceCodeDir, true).outcome.Pass? <==> VisitsFetchable(env.server, visits)
    decreases |visits|
  {
    if visits != [] {
      var rest := visits[1..];
      var destdir := DestDir(env.abspath(sourceCodeDir), visits[0].hierarchy);
      CheckoutObjectsPassIff(s, env, visits[0].objects, destdir);
      var r := CheckoutObjects(s, env, visits[0].objects, destdir);
      if r.outcome.Pass? {
        PackageLoopPassIff(r.state, env, rest, sourceCodeDir);
        assert VisitsFetchable(env.server, visits) <==> VisitsFetchable(env.server, rest) by {
          assert forall i :: 0 < i < |visits| ==> visits[i] == rest[i - 1];
        }
      }
    }
  }

  /**
   * With the recursive flag the run succeeds exactly when every visited
   * package's exports can be fetched; an unsupported object type never makes
   * it fail.
   */
  lemma PackageRecursivePassIff(s: Snapshot, env: Env, args: PackageArgs, visits: seq<Visit>)
    requires args.recursive
    ensures Package(s, env, args, visits).outcome.Pass? <==> VisitsFetchable(env.server, visits)
  {
    var init := MakeRepoDirForPackage(s, args, env.abspath);
    PackageLoopPassIff(init.state, env, visits, SourceCodeDir(init.repoDir, args.startingFolder));
  }
}
