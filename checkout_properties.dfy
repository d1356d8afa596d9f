/**
 * What the checkout orchestration guarantees, stated over CheckoutSpec:
 * the exact files each exporter writes, the partial-failure policy of the
 * dispatch loop, the directory layout and the recursion policy of the
 * package command.
 */
module CheckoutProperties {
  import opened Wrappers
  import opened Names
  import opened ClassAttributes
  import opened CheckoutSpec

  // ---------------------------------------------------------------------------
  // Reference definitions
  // ---------------------------------------------------------------------------

  /** The file for one part of an object: its lower-cased name and a fixed suffix. */
  function ObjectFile(destdir: Option<string>, name: string, suffix: string): string {
    Place(destdir, Lower(name) + suffix)
  }

  predicate ClassComplete(c: ClassObject) {
    c.main.Some? && c.definitions.Some? && c.implementations.Some? && c.testClasses.Some?
  }

  /**
   * Everything the export of obj needs can be fetched. An object with an
   * unsupported type needs nothing.
   */
  predicate Fetchable(server: Server, obj: ObjectRef) {
    obj.typ !in Checkouters ||
    match Checkouters[obj.typ]
    case Program => obj.name in server.programs
    case Interface => obj.name in server.interfaces
    case Class => obj.name in server.classes && ClassComplete(server.classes[obj.name])
  }

  predicate AllFetchable(server: Server, objects: seq<ObjectRef>) {
    forall i :: 0 <= i < |objects| ==> Fetchable(server, objects[i])
  }

  /** The five files of a class: four sources and the attribute record. */
  function ClassFiles(env: Env, name: string, c: ClassObject, destdir: Option<string>): map<string, Content>
    requires ClassComplete(c)
  {
    map[ObjectFile(destdir, name, ".clas.abap") := Text(c.main.value),
        ObjectFile(destdir, name, ".clas.locals_def.abap") := Text(c.definitions.value),
        ObjectFile(destdir, name, ".clas.locals_imp.abap") := Text(c.implementations.value),
        ObjectFile(destdir, name, ".clas.testclasses.abap") := Text(c.testClasses.value),
        ObjectFile(destdir, name, ".clas.xml") := ClassXml(ClassSerializer, BuildClassAbapAttributes(c.info, env.isoToSap))]
  }

  /**
   * The files a class with an unreadable text leaves: the readable sources
   * before the first unreadable one, that one empty, and no attribute record.
   */
  function PartialClassFiles(name: string, c: ClassObject, destdir: Option<string>): map<string, Content>
    requires !ClassComplete(c)
  {
    var p1, p2, p3, p4 := ObjectFile(destdir, name, ".clas.abap"), ObjectFile(destdir, name, ".clas.locals_def.abap"),
      ObjectFile(destdir, name, ".clas.locals_imp.abap"), ObjectFile(destdir, name, ".clas.testclasses.abap");
    if c.main.None? then map[p1 := Text("")]
    else if c.definitions.None? then map[p1 := Text(c.main.value), p2 := Text("")]
    else if c.implementations.None? then map[p1 := Text(c.main.value), p2 := Text(c.definitions.value), p3 := Text("")]
    else map[p1 := Text(c.main.value), p2 := Text(c.definitions.value), p3 := Text(c.implementations.value), p4 := Text("")]
  }

  /** The files the export of one object leaves, by path. */
  function Exports(env: Env, obj: ObjectRef, destdir: Option<string>): map<string, Content>
    requires Fetchable(env.server, obj)
  {
    if obj.typ !in Checkouters then map[]
    else match Checkouters[obj.typ]
      case Program => map[ObjectFile(destdir, obj.name, ".prog.abap") := Text(env.server.programs[obj.name])]
      case Interface => map[ObjectFile(destdir, obj.name, ".intf.abap") := Text(env.server.interfaces[obj.name])]
      case Class => ClassFiles(env, obj.name, env.server.classes[obj.name], destdir)
  }

  /** The files a list of exports leaves, a later object's file replacing an earlier one at the same path. */
  function Written(env: Env, objects: seq<ObjectRef>, destdir: string): map<string, Content>
    requires AllFetchable(env.server, objects)
    decreases |objects|
  {
    if objects == [] then map[]
    else Exports(env, objects[0], Some(destdir)) + Written(env, objects[1..], destdir)
  }

  /** The objects whose type has no exporter, in list order. */
  function Unsupported(objects: seq<ObjectRef>): seq<ObjectRef>
    decreases |objects|
  {
    if objects == [] then []
    else if objects[0].typ in Checkouters then Unsupported(objects[1..])
    else [objects[0]] + Unsupported(objects[1..])
  }

  /** The diagnostic lines for a list of objects. */
  function Diagnostics(objects: seq<ObjectRef>): (r: seq<string>)
    ensures |r| == |Unsupported(objects)|
  {
    var u := Unsupported(objects);
    seq(|u|, j requires 0 <= j < |u| => UnsupportedLine(u[j]))
  }

  /** For each object, whether its type has no exporter. */
  function UnsupportedFlags(objects: seq<ObjectRef>): seq<bool> {
    seq(|objects|, i requires 0 <= i < |objects| => objects[i].typ !in Checkouters)
  }

  /** The number of objects with an unsupported type. */
  function CountUnsupported(objects: seq<ObjectRef>): nat {
    multiset(UnsupportedFlags(objects))[true]
  }

  /** No file removed, and every file added or changed lies inside dir. */
  predicate ChangedOnlyUnder(before: map<string, Content>, after: map<string, Content>, dir: string) {
    && before.Keys <= after.Keys
    && forall p :: p in after && (p !in before || after[p] != before[p]) ==> Under(dir, p)
  }

  // ---------------------------------------------------------------------------
  // Helpers
  // ---------------------------------------------------------------------------

  lemma MapUnionAssoc<K, V>(a: map<K, V>, b: map<K, V>, c: map<K, V>)
    ensures (a + b) + c == a + (b + c)
  {
    assert forall k :: k in (a + b) + c <==> k in a + (b + c);
  }

  lemma ChangedOnlyUnderTrans(a: map<string, Content>, b: map<string, Content>, c: map<string, Content>, dir: string)
    requires ChangedOnlyUnder(a, b, dir) && ChangedOnlyUnder(b, c, dir)
    ensures ChangedOnlyUnder(a, c, dir)
  {
    forall p | p in c && (p !in a || c[p] != a[p])
      ensures Under(dir, p)
    {
      if p !in b || c[p] != b[p] {
      } else {
      }
    }
  }

  /** A suffix can be split off a placed name. */
  lemma PlaceAppend(destdir: Option<string>, leaf: string, suffix: string)
    ensures Place(destdir, leaf + suffix) == Place(destdir, leaf) + suffix
  {
    if destdir.Some? {
      assert Join(destdir.value, leaf + suffix) == Join(destdir.value, leaf) + suffix;
    }
  }

  /** The file name of a lower-case suffix and extension. */
  lemma BuildFilenameLowerParts(name: string, typsfx: string, fileext: string, destdir: Option<string>)
    requires IsLowerCase(typsfx) && IsLowerCase(fileext)
    ensures BuildFilename(name, typsfx, fileext, destdir) == ObjectFile(destdir, name, typsfx + "." + fileext)
  {
    LowerOfLowerCase(typsfx);
    LowerOfLowerCase(fileext);
    assert Lower(".") == ".";
    assert Lower(name) + Lower(typsfx) + Lower(".") + Lower(fileext) == Lower(name) + (typsfx + "." + fileext);
  }

  lemma UpdatesAsUnion<K, V>(m: map<K, V>, p1: K, v1: V, p2: K, v2: V, p3: K, v3: V, p4: K, v4: V, p5: K, v5: V)
    ensures m[p1 := v1][p2 := v2][p3 := v3][p4 := v4][p5 := v5]
         == m + map[p1 := v1, p2 := v2, p3 := v3, p4 := v4, p5 := v5]
  {
  }

  // ---------------------------------------------------------------------------
  // Exporters
  // ---------------------------------------------------------------------------

  /** Writing into an existing directory (or the working directory) never fails. */
  predicate CanWrite(s: Snapshot, destdir: Option<string>) {
    destdir.None? || destdir.value in s.dirs
  }

  /**
   * download_abap_source writes exactly one file, the lower-cased name with
   * the suffix and `.abap`: the text when it can be read, and an empty file
   * and a fetch failure when it cannot.
   */
  lemma DownloadAbapSourceEffect(s: Snapshot, name: string, body: Option<string>, typsfx: string, destdir: Option<string>)
    requires CanWrite(s, destdir) && IsLowerCase(typsfx)
    ensures var path := ObjectFile(destdir, name, typsfx + ".abap");
      DownloadAbapSource(s, name, body, typsfx, destdir)
      == if body.Some? then Step(s.(files := s.files[path := Text(body.value)]), Pass)
         else Step(s.(files := s.files[path := Text("")]), Fail(FetchFailed(name)))
  {
    assert IsLowerCase("abap");
    BuildFilenameLowerParts(name, typsfx, "abap", destdir);
    assert typsfx + "." + "abap" == typsfx + ".abap";
  }

  /**
   * A program checkout writes exactly `<name>.prog.abap`, lower-cased,
   * holding the program's text; a program that cannot be fetched leaves that
   * file empty and fails.
   */
  lemma CheckoutProgramEffect(s: Snapshot, env: Env, name: string, destdir: Option<string>)
    requires CanWrite(s, destdir)
    ensures var path := ObjectFile(destdir, name, ".prog.abap");
      CheckoutProgram(s, env, name, destdir)
      == if name in env.server.programs then Step(s.(files := s.files[path := Text(env.server.programs[name])]), Pass)
         else Step(s.(files := s.files[path := Text("")]), Fail(FetchFailed(name)))
  {
    assert ".prog" + ".abap" == ".prog.abap";
    DownloadAbapSourceEffect(s, name, Get(env.server.programs, name), ".prog", destdir);
  }

  /** An interface checkout writes exactly `<name>.intf.abap`, lower-cased, holding the interface's text. */
  lemma CheckoutInterfaceEffect(s: Snapshot, env: Env, name: string, destdir: Option<string>)
    requires CanWrite(s, destdir)
    ensures var path := ObjectFile(destdir, name, ".intf.abap");
      CheckoutInterface(s, env, name, destdir)
      == if name in env.server.interfaces then Step(s.(files := s.files[path := Text(env.server.interfaces[name])]), Pass)
         else Step(s.(files := s.files[path := Text("")]), Fail(FetchFailed(name)))
  {
    assert ".intf" + ".abap" == ".intf.abap";
    DownloadAbapSourceEffect(s, name, Get(env.server.interfaces, name), ".intf", destdir);
  }

  /** Names that share a prefix are equal only when their suffixes are. */
  lemma AppendCancel(base: string, a: string, b: string)
    requires base + a == base + b
    ensures a == b
  {
    assert a == (base + a)[|base|..];
    assert b == (base + b)[|base|..];
  }

  /** Two parts of one object with different suffixes go to different files. */
  lemma ObjectFilesDistinct(destdir: Option<string>, name: string, a: string, b: string)
    requires a != b
    ensures ObjectFile(destdir, name, a) != ObjectFile(destdir, name, b)
  {
    PlaceAppend(destdir, Lower(name), a);
    PlaceAppend(destdir, Lower(name), b);
    if ObjectFile(destdir, name, a) == ObjectFile(destdir, name, b) {
      AppendCancel(Place(destdir, Lower(name)), a, b);
    }
  }

  /** The five file names of a class are pairwise different. */
  lemma ClassFilesDistinct(env: Env, name: string, c: ClassObject, destdir: Option<string>)
    requires ClassComplete(c)
    ensures |ClassFiles(env, name, c, destdir).Keys| == 5
  {
    var s1, s2, s3, s4, s5 := ".clas.abap", ".clas.locals_def.abap", ".clas.locals_imp.abap", ".clas.testclasses.abap", ".clas.xml";
    assert s2[13] != s3[13];
    ObjectFilesDistinct(destdir, name, s1, s2);
    ObjectFilesDistinct(destdir, name, s1, s3);
    ObjectFilesDistinct(destdir, name, s1, s4);
    ObjectFilesDistinct(destdir, name, s1, s5);
    ObjectFilesDistinct(destdir, name, s2, s3);
    ObjectFilesDistinct(destdir, name, s2, s4);
    ObjectFilesDistinct(destdir, name, s2, s5);
    ObjectFilesDistinct(destdir, name, s3, s4);
    ObjectFilesDistinct(destdir, name, s3, s5);
    ObjectFilesDistinct(destdir, name, s4, s5);
  }

  lemma ClassSuffixesLowerCase()
    ensures IsLowerCase(".clas") && IsLowerCase(".clas.locals_def") && IsLowerCase(".clas.locals_imp")
    ensures IsLowerCase(".clas.testclasses") && IsLowerCase("xml")
  {
  }

  lemma ClassSuffixesJoined()
    ensures ".clas" + ".abap" == ".clas.abap" && ".clas.locals_def" + ".abap" == ".clas.locals_def.abap"
    ensures ".clas.locals_imp" + ".abap" == ".clas.locals_imp.abap" && ".clas.testclasses" + ".abap" == ".clas.testclasses.abap"
    ensures ".clas" + "." + "xml" == ".clas.xml"
  {
  }

  /** A source that can be read is written under suffix, the type suffix followed by `.abap`. */
  lemma SourceWritten(s: Snapshot, name: string, body: Option<string>, typsfx: string, suffix: string, destdir: Option<string>)
    requires CanWrite(s, destdir) && IsLowerCase(typsfx) && body.Some? && suffix == typsfx + ".abap"
    ensures DownloadAbapSource(s, name, body, typsfx, destdir)
         == Step(s.(files := s.files[ObjectFile(destdir, name, suffix) := Text(body.value)]), Pass)
  {
    DownloadAbapSourceEffect(s, name, body, typsfx, destdir);
  }

  /** The four sources of a class that can be fetched in full are written in order. */
  lemma ClassSourcesEffect(s: Snapshot, name: string, c: ClassObject, destdir: Option<string>)
    requires CanWrite(s, destdir) && ClassComplete(c)
    ensures ClassSources(s, name, c, destdir)
         == Step(s.(files := s.files[ObjectFile(destdir, name, ".clas.abap") := Text(c.main.value)]
                                    [ObjectFile(destdir, name, ".clas.locals_def.abap") := Text(c.definitions.value)]
                                    [ObjectFile(destdir, name, ".clas.locals_imp.abap") := Text(c.implementations.value)]
                                    [ObjectFile(destdir, name, ".clas.testclasses.abap") := Text(c.testClasses.value)]), Pass)
  {
    ClassSuffixesLowerCase();
    ClassSuffixesJoined();
    SourceWritten(s, name, c.main, ".clas", ".clas.abap", destdir);
    var s1 := DownloadAbapSource(s, name, c.main, ".clas", destdir);
    SourceWritten(s1.state, name, c.definitions, ".clas.locals_def", ".clas.locals_def.abap", destdir);
    var s2 := DownloadAbapSource(s1.state, name, c.definitions, ".clas.locals_def", destdir);
    SourceWritten(s2.state, name, c.implementations, ".clas.locals_imp", ".clas.locals_imp.abap", destdir);
    var s3 := DownloadAbapSource(s2.state, name, c.implementations, ".clas.locals_imp", destdir);
    SourceWritten(s3.state, name, c.testClasses, ".clas.testclasses", ".clas.testclasses.abap", destdir);
  }

  /**
   * A class that can be fetched in full is checked out as exactly its five
   * files: the main source, local definitions, local implementations and
   * test classes, then the attribute record.
   */
  lemma CheckoutClassEffect(s: Snapshot, env: Env, name: string, destdir: Option<string>)
    requires CanWrite(s, destdir)
    requires name in env.server.classes && ClassComplete(env.server.classes[name])
    ensures CheckoutClass(s, env, name, destdir)
         == Step(s.(files := s.files + ClassFiles(env, name, env.server.classes[name], destdir)), Pass)
  {
    var c := env.server.classes[name];
    var p1, p2, p3, p4, p5 := ObjectFile(destdir, name, ".clas.abap"), ObjectFile(destdir, name, ".clas.locals_def.abap"),
      ObjectFile(destdir, name, ".clas.locals_imp.abap"), ObjectFile(destdir, name, ".clas.testclasses.abap"),
      ObjectFile(destdir, name, ".clas.xml");
    ClassSourcesEffect(s, name, c, destdir);
    var x := ClassXml(ClassSerializer, BuildClassAbapAttributes(c.info, env.isoToSap));
    ClassSuffixesLowerCase();
    ClassSuffixesJoined();
    BuildFilenameLowerParts(name, ".clas", "xml", destdir);
    UpdatesAsUnion(s.files, p1, Text(c.main.value), p2, Text(c.definitions.value), p3, Text(c.implementations.value),
      p4, Text(c.testClasses.value), p5, x);
  }

  /** A class whose attributes cannot be fetched fails before anything is written. */
  lemma CheckoutClassFetchFails(s: Snapshot, env: Env, name: string, destdir: Option<string>)
    requires name !in env.server.classes
    ensures CheckoutClass(s, env, name, destdir) == Step(s, Fail(FetchFailed(name)))
  {
  }

  // ---------------------------------------------------------------------------
  // Diagnostics
  // ---------------------------------------------------------------------------

  /** The skipped objects are exactly the listed objects whose type has no exporter. */
  lemma {:induction false} UnsupportedMembers(objects: seq<ObjectRef>, o: ObjectRef)
    ensures o in Unsupported(objects) <==> o in objects && o.typ !in Checkouters
    decreases |objects|
  {
    if objects != [] {
      UnsupportedMembers(objects[1..], o);
      assert objects == [objects[0]] + objects[1..];
    }
  }

  lemma {:induction false} UnsupportedAppend(a: seq<ObjectRef>, b: seq<ObjectRef>)
    ensures Unsupported(a + b) == Unsupported(a) + Unsupported(b)
    decreases |a|
  {
    if a != [] {
      assert (a + b)[1..] == a[1..] + b;
      UnsupportedAppend(a[1..], b);
    } else {
      assert a + b == b;
    }
  }

  /** The diagnostics of two lists one after the other are those of the joined list. */
  lemma DiagnosticsAppend(a: seq<ObjectRef>, b: seq<ObjectRef>)
    ensures Diagnostics(a + b) == Diagnostics(a) + Diagnostics(b)
  {
    UnsupportedAppend(a, b);
  }

  /** The diagnostic of a single object. */
  lemma DiagnosticsSingle(obj: ObjectRef)
    ensures Diagnostics([obj]) == if obj.typ in Checkouters then [] else [UnsupportedLine(obj)]
  {
    assert [obj][1..] == [];
    assert Unsupported([obj]) == if obj.typ in Checkouters then [] else [obj];
  }

  /** One diagnostic line per object whose type has no exporter. */
  lemma {:induction false} DiagnosticsCount(objects: seq<ObjectRef>)
    ensures |Diagnostics(objects)| == CountUnsupported(objects)
    decreases |objects|
  {
    if objects != [] {
      var rest := objects[1..];
      DiagnosticsCount(rest);
      assert UnsupportedFlags(objects) == [objects[0].typ !in Checkouters] + UnsupportedFlags(rest);
    } else {
      assert UnsupportedFlags(objects) == [];
    }
  }

  // ---------------------------------------------------------------------------
  // checkout_objects
  // ---------------------------------------------------------------------------

  /** The local effect of an exporter: directories and log untouched, files changed only inside dir. */
  predicate Confined(s: Snapshot, t: Snapshot, dir: string) {
    t.dirs == s.dirs && t.log == s.log && ChangedOnlyUnder(s.files, t.files, dir)
  }

  lemma DownloadConfined(s: Snapshot, name: string, body: Option<string>, typsfx: string, dir: string)
    ensures Confined(s, DownloadAbapSource(s, name, body, typsfx, Some(dir)).state, dir)
  {
  }

  lemma ConfinedTrans(a: Snapshot, b: Snapshot, c: Snapshot, dir: string)
    requires Confined(a, b, dir) && Confined(b, c, dir)
    ensures Confined(a, c, dir)
  {
    ChangedOnlyUnderTrans(a.files, b.files, c.files, dir);
  }

  /** Every export write lands inside destdir, whether it completes or not. */
  lemma CheckoutClassConfined(s: Snapshot, env: Env, name: string, dir: string)
    ensures Confined(s, CheckoutClass(s, env, name, Some(dir)).state, dir)
  {
    if name in env.server.classes {
      var c := env.server.classes[name];
      var d := Some(dir);
      var s1 := DownloadAbapSource(s, name, c.main, ".clas", d);
      DownloadConfined(s, name, c.main, ".clas", dir);
      if s1.outcome.Pass? {
        var s2 := DownloadAbapSource(s1.state, name, c.definitions, ".clas.locals_def", d);
        DownloadConfined(s1.state, name, c.definitions, ".clas.locals_def", dir);
        ConfinedTrans(s, s1.state, s2.state, dir);
        if s2.outcome.Pass? {
          var s3 := DownloadAbapSource(s2.state, name, c.implementations, ".clas.locals_imp", d);
          DownloadConfined(s2.state, name, c.implementations, ".clas.locals_imp", dir);
          ConfinedTrans(s, s2.state, s3.state, dir);
          if s3.outcome.Pass? {
            var s4 := DownloadAbapSource(s3.state, name, c.testClasses, ".clas.testclasses", d);
            DownloadConfined(s3.state, name, c.testClasses, ".clas.testclasses", dir);
            ConfinedTrans(s, s3.state, s4.state, dir);
            if s4.outcome.Pass? {
              var s5 := DumpAttributesToFile(s4.state, name, BuildClassAbapAttributes(c.info, env.isoToSap), ".clas", ClassSerializer, d);
              ConfinedTrans(s, s4.state, s5.state, dir);
            }
          }
        }
      }
    }
  }

  /**
   * One object of the loop: the directories never change, the log gains
   * exactly the object's diagnostic (one line when its type is unsupported,
   * none otherwise), files change only inside destdir, and the step fails
   * only for an object with an exporter that cannot be fetched.
   */
  lemma CheckoutObjectFrame(s: Snapshot, env: Env, obj: ObjectRef, destdir: string)
    ensures var r := CheckoutObject(s, env, obj, destdir);
      && r.state.dirs == s.dirs
      && r.state.log == s.log + Diagnostics([obj])
      && ChangedOnlyUnder(s.files, r.state.files, destdir)
      && (r.outcome.Fail? && destdir in s.dirs ==> obj.typ in Checkouters && !Fetchable(env.server, obj))
  {
    if destdir in s.dirs && Fetchable(env.server, obj) {
      CheckoutObjectEffect(s, env, obj, destdir);
    }
    if obj.typ in Checkouters {
      DiagnosticsSingle(obj);
      match Checkouters[obj.typ]
      case Program => DownloadConfined(s, obj.name, Get(env.server.programs, obj.name), ".prog", destdir);
      case Interface => DownloadConfined(s, obj.name, Get(env.server.interfaces, obj.name), ".intf", destdir);
      case Class => CheckoutClassConfined(s, env, obj.name, destdir);
    } else {
      DiagnosticsSingle(obj);
    }
  }

  /**
   * One object of the loop whose export can be fetched, into an existing
   * directory: its files are written and its diagnostic is logged.
   */
  lemma CheckoutObjectEffect(s: Snapshot, env: Env, obj: ObjectRef, destdir: string)
    requires destdir in s.dirs && Fetchable(env.server, obj)
    ensures CheckoutObject(s, env, obj, destdir)
         == Step(Snapshot(s.files + Exports(env, obj, Some(destdir)), s.dirs, s.log + Diagnostics([obj])), Pass)
  {
    var d := Some(destdir);
    if obj.typ in Checkouters {
      DiagnosticsSingle(obj);
      match Checkouters[obj.typ]
      case Program =>
        CheckoutProgramEffect(s, env, obj.name, d);
        assert s.files[ObjectFile(d, obj.name, ".prog.abap") := Text(env.server.programs[obj.name])]
            == s.files + Exports(env, obj, d);
      case Interface =>
        CheckoutInterfaceEffect(s, env, obj.name, d);
        assert s.files[ObjectFile(d, obj.name, ".intf.abap") := Text(env.server.interfaces[obj.name])]
            == s.files + Exports(env, obj, d);
      case Class =>
        CheckoutClassEffect(s, env, obj.name, d);
    } else {
      DiagnosticsSingle(obj);
      assert s.files + map[] == s.files;
    }
  }

  /** A source that cannot be read leaves its file, named by suffix, empty and fails. */
  lemma SourceEmptied(s: Snapshot, name: string, body: Option<string>, typsfx: string, suffix: string, destdir: Option<string>)
    requires CanWrite(s, destdir) && IsLowerCase(typsfx) && body.None? && suffix == typsfx + ".abap"
    ensures DownloadAbapSource(s, name, body, typsfx, destdir)
         == Step(s.(files := s.files[ObjectFile(destdir, name, suffix) := Text("")]), Fail(FetchFailed(name)))
  {
    DownloadAbapSourceEffect(s, name, body, typsfx, destdir);
  }

  /** A source with a given body, written or emptied. */
  lemma SourceStep(s: Snapshot, name: string, body: Option<string>, typsfx: string, suffix: string, destdir: Option<string>)
    requires CanWrite(s, destdir) && IsLowerCase(typsfx) && suffix == typsfx + ".abap"
    ensures DownloadAbapSource(s, name, body, typsfx, destdir)
         == if body.Some? then Step(s.(files := s.files[ObjectFile(destdir, name, suffix) := Text(body.value)]), Pass)
            else Step(s.(files := s.files[ObjectFile(destdir, name, suffix) := Text("")]), Fail(FetchFailed(name)))
  {
    if body.Some? {
      SourceWritten(s, name, body, typsfx, suffix, destdir);
    } else {
      SourceEmptied(s, name, body, typsfx, suffix, destdir);
    }
  }

  lemma UpdatesAsUnion4<K, V>(m: map<K, V>, p1: K, v1: V, p2: K, v2: V, p3: K, v3: V, p4: K, v4: V)
    ensures m[p1 := v1][p2 := v2] == m + map[p1 := v1, p2 := v2]
    ensures m[p1 := v1][p2 := v2][p3 := v3] == m + map[p1 := v1, p2 := v2, p3 := v3]
    ensures m[p1 := v1][p2 := v2][p3 := v3][p4 := v4] == m + map[p1 := v1, p2 := v2, p3 := v3, p4 := v4]
  {
  }

  /** The sources of a class written in order up to the first unreadable one, as successive writes. */
  lemma ClassSourcesStops(s: Snapshot, name: string, c: ClassObject, destdir: Option<string>)
    requires CanWrite(s, destdir) && !ClassComplete(c)
    ensures var p1, p2, p3, p4 := ObjectFile(destdir, name, ".clas.abap"), ObjectFile(destdir, name, ".clas.locals_def.abap"),
        ObjectFile(destdir, name, ".clas.locals_imp.abap"), ObjectFile(destdir, name, ".clas.testclasses.abap");
      var r := ClassSources(s, name, c, destdir);
      && r.outcome == Fail(FetchFailed(name))
      && (c.main.None? ==> r.state.files == s.files[p1 := Text("")])
      && (c.main.Some? && c.definitions.None? ==> r.state.files == s.files[p1 := Text(c.main.value)][p2 := Text("")])
      && (c.main.Some? && c.definitions.Some? && c.implementations.None? ==>
            r.state.files == s.files[p1 := Text(c.main.value)][p2 := Text(c.definitions.value)][p3 := Text("")])
      && (c.main.Some? && c.definitions.Some? && c.implementations.Some? ==>
            r.state.files == s.files[p1 := Text(c.main.value)][p2 := Text(c.definitions.value)][p3 := Text(c.implementations.value)][p4 := Text("")])
      && r.state.dirs == s.dirs && r.state.log == s.log
  {
    ClassSuffixesLowerCase();
    ClassSuffixesJoined();
    SourceStep(s, name, c.main, ".clas", ".clas.abap", destdir);
    var s1 := DownloadAbapSource(s, name, c.main, ".clas", destdir);
    SourceStep(s1.state, name, c.definitions, ".clas.locals_def", ".clas.locals_def.abap", destdir);
    var s2 := DownloadAbapSource(s1.state, name, c.definitions, ".clas.locals_def", destdir);
    SourceStep(s2.state, name, c.implementations, ".clas.locals_imp", ".clas.locals_imp.abap", destdir);
    var s3 := DownloadAbapSource(s2.state, name, c.implementations, ".clas.locals_imp", destdir);
    SourceStep(s3.state, name, c.testClasses, ".clas.testclasses", ".clas.testclasses.abap", destdir);
  }

  /** The source downloads of a class with an unreadable text stop at the first one, leaving it empty. */
  lemma ClassSourcesIncomplete(s: Snapshot, name: string, c: ClassObject, destdir: Option<string>)
    requires CanWrite(s, destdir) && !ClassComplete(c)
    ensures ClassSources(s, name, c, destdir)
         == Step(s.(files := s.files + PartialClassFiles(name, c, destdir)), Fail(FetchFailed(name)))
  {
    ClassSourcesStops(s, name, c, destdir);
    UpdatesAsUnion4(s.files, ObjectFile(destdir, name, ".clas.abap"), Text(if c.main.Some? then c.main.value else ""),
      ObjectFile(destdir, name, ".clas.locals_def.abap"), Text(if c.definitions.Some? then c.definitions.value else ""),
      ObjectFile(destdir, name, ".clas.locals_imp.abap"), Text(if c.implementations.Some? then c.implementations.value else ""),
      ObjectFile(destdir, name, ".clas.testclasses.abap"), Text(""));
  }

  /**
   * A class with a text that cannot be read fails at the first such text:
   * the readable sources before it are written, its file is left empty, and
   * neither the later sources nor the attribute record are written.
   */
  lemma CheckoutClassIncompleteFails(s: Snapshot, env: Env, name: string, destdir: Option<string>)
    requires CanWrite(s, destdir)
    requires name in env.server.classes && !ClassComplete(env.server.classes[name])
    ensures CheckoutClass(s, env, name, destdir)
         == Step(s.(files := s.files + PartialClassFiles(name, env.server.classes[name], destdir)), Fail(FetchFailed(name)))
  {
    ClassSourcesIncomplete(s, name, env.server.classes[name], destdir);
  }

  /** Into an existing directory, one object's step succeeds exactly when its export can be fetched. */
  lemma CheckoutObjectPassIff(s: Snapshot, env: Env, obj: ObjectRef, destdir: string)
    requires destdir in s.dirs
    ensures CheckoutObject(s, env, obj, destdir).outcome.Pass? <==> Fetchable(env.server, obj)
  {
    if Fetchable(env.server, obj) {
      CheckoutObjectEffect(s, env, obj, destdir);
    } else {
      match Checkouters[obj.typ]
      case Program => CheckoutProgramEffect(s, env, obj.name, Some(destdir));
      case Interface => CheckoutInterfaceEffect(s, env, obj.name, Some(destdir));
      case Class =>
        if obj.name in env.server.classes {
          CheckoutClassIncompleteFails(s, env, obj.name, Some(destdir));
        }
    }
  }

  /** Into an existing directory, the loop succeeds exactly when every export can be fetched. */
  lemma {:induction false} CheckoutLoopPassIff(s: Snapshot, env: Env, objects: seq<ObjectRef>, destdir: string)
    requires destdir in s.dirs
    ensures CheckoutLoop(s, env, objects, destdir).outcome.Pass? <==> AllFetchable(env.server, objects)
    decreases |objects|
  {
    if objects != [] {
      var r0 := CheckoutObject(s, env, objects[0], destdir);
      CheckoutObjectPassIff(s, env, objects[0], destdir);
      CheckoutObjectFrame(s, env, objects[0], destdir);
      if r0.outcome.Pass? {
        CheckoutLoopPassIff(r0.state, env, objects[1..], destdir);
        assert AllFetchable(env.server, objects) <==> AllFetchable(env.server, objects[1..]) by {
          assert forall i :: 0 < i < |objects| ==> objects[i] == objects[1..][i - 1];
        }
      }
    }
  }

  /** The loop keeps the directories and writes only inside destdir. */
  lemma {:induction false} CheckoutLoopFrame(s: Snapshot, env: Env, objects: seq<ObjectRef>, destdir: string)
    ensures var r := CheckoutLoop(s, env, objects, destdir);
      && r.state.dirs == s.dirs
      && ChangedOnlyUnder(s.files, r.state.files, destdir)
    decreases |objects|
  {
    if objects != [] {
      var r0 := CheckoutObject(s, env, objects[0], destdir);
      CheckoutObjectFrame(s, env, objects[0], destdir);
      if r0.outcome.Pass? {
        CheckoutLoopFrame(r0.state, env, objects[1..], destdir);
        var r := CheckoutLoop(r0.state, env, objects[1..], destdir);
        ChangedOnlyUnderTrans(s.files, r0.state.files, r.state.files, destdir);
      }
    }
  }

  /**
   * When every object's export can be fetched and destdir exists, the loop
   * succeeds: it writes exactly the objects' files and logs one line per
   * unsupported object, in list order.
   */
  lemma {:induction false} CheckoutLoopSucceeds(s: Snapshot, env: Env, objects: seq<ObjectRef>, destdir: string)
    requires destdir in s.dirs && AllFetchable(env.server, objects)
    ensures CheckoutLoop(s, env, objects, destdir)
         == Step(Snapshot(s.files + Written(env, objects, destdir), s.dirs, s.log + Diagnostics(objects)), Pass)
    decreases |objects|
  {
    if objects == [] {
      assert s.files + map[] == s.files;
      assert s.log + [] == s.log;
    } else {
      var rest := objects[1..];
      CheckoutObjectEffect(s, env, objects[0], destdir);
      var r0 := CheckoutObject(s, env, objects[0], destdir);
      assert AllFetchable(env.server, rest);
      CheckoutLoopSucceeds(r0.state, env, rest, destdir);
      MapUnionAssoc(s.files, Exports(env, objects[0], Some(destdir)), Written(env, rest, destdir));
      assert objects == [objects[0]] + rest;
      DiagnosticsAppend([objects[0]], rest);
    }
  }

  /**
   * The loop fails at object k: it is the first object with an exporter
   * whose export cannot be fetched, and the log holds the diagnostics of
   * exactly the objects before it.
   */
  predicate FailsAt(s: Snapshot, env: Env, objects: seq<ObjectRef>, destdir: string, k: int) {
    FailedAfter(env.server, objects, k, s.log, CheckoutLoop(s, env, objects, destdir).state.log)
  }

  /** Object k is the first that fails, and the log went from before to after by the diagnostics of the objects before it. */
  predicate FailedAfter(server: Server, objects: seq<ObjectRef>, k: int, before: seq<string>, after: seq<string>) {
    && 0 <= k < |objects|
    && objects[k].typ in Checkouters && !Fetchable(server, objects[k])
    && AllFetchable(server, objects[..k])
    && after == before + Diagnostics(objects[..k])
  }

  lemma FailedAfterCons(server: Server, objects: seq<ObjectRef>, k: int, before: seq<string>, mid: seq<string>, after: seq<string>)
    requires objects != [] && Fetchable(server, objects[0])
    requires mid == before + Diagnostics([objects[0]])
    requires FailedAfter(server, objects[1..], k, mid, after)
    ensures FailedAfter(server, objects, k + 1, before, after)
  {
    var rest := objects[1..];
    assert objects[..k + 1] == [objects[0]] + rest[..k];
    DiagnosticsAppend([objects[0]], rest[..k]);
    assert objects[k + 1] == rest[k];
  }

  /** A failing loop has logged the diagnostics of exactly the objects before the failing one. */
  lemma {:induction false} CheckoutLoopFailure(s: Snapshot, env: Env, objects: seq<ObjectRef>, destdir: string)
    requires destdir in s.dirs
    requires CheckoutLoop(s, env, objects, destdir).outcome.Fail?
    ensures exists k :: FailsAt(s, env, objects, destdir, k)
    decreases |objects|
  {
    var r0 := CheckoutObject(s, env, objects[0], destdir);
    CheckoutObjectFrame(s, env, objects[0], destdir);
    DiagnosticsSingle(objects[0]);
    if r0.outcome.Fail? {
      assert CheckoutLoop(s, env, objects, destdir) == r0;
      assert objects[..0] == [];
      assert FailsAt(s, env, objects, destdir, 0);
    } else {
      var rest := objects[1..];
      var fin := CheckoutLoop(r0.state, env, rest, destdir);
      assert CheckoutLoop(s, env, objects, destdir) == fin;
      CheckoutLoopFailure(r0.state, env, rest, destdir);
      var k :| FailsAt(r0.state, env, rest, destdir, k);
      FailedAfterCons(env.server, objects, k, s.log, r0.state.log, fin.state.log);
      assert FailsAt(s, env, objects, destdir, k + 1);
    }
  }

  /** A loop whose first object succeeds goes on with the rest from the state that object leaves. */
  lemma CheckoutLoopCons(s: Snapshot, env: Env, objects: seq<ObjectRef>, destdir: string)
    requires objects != [] && CheckoutObject(s, env, objects[0], destdir).outcome.Pass?
    ensures CheckoutLoop(s, env, objects, destdir)
         == CheckoutLoop(CheckoutObject(s, env, objects[0], destdir).state, env, objects[1..], destdir)
  {
  }

  /** The fetchable objects before k: the first of them, and the rest. */
  lemma PrefixCons(env: Env, objects: seq<ObjectRef>, k: int, destdir: string)
    requires 0 < k <= |objects| && AllFetchable(env.server, objects[..k])
    ensures Fetchable(env.server, objects[0]) && AllFetchable(env.server, objects[1..][..k - 1])
    ensures Written(env, objects[..k], destdir)
         == Exports(env, objects[0], Some(destdir)) + Written(env, objects[1..][..k - 1], destdir)
    ensures Diagnostics(objects[..k]) == Diagnostics([objects[0]]) + Diagnostics(objects[1..][..k - 1])
  {
    var pre, tail := objects[..k], objects[1..][..k - 1];
    assert pre[0] == objects[0];
    assert pre[1..] == tail;
    assert pre == [objects[0]] + tail;
    assert forall i :: 0 <= i < |tail| ==> tail[i] == pre[i + 1];
    DiagnosticsAppend([objects[0]], tail);
  }

  /** A fetchable first object into an existing directory: its files and diagnostic, then the rest. */
  lemma CheckoutLoopStep(s: Snapshot, env: Env, objects: seq<ObjectRef>, destdir: string)
    requires destdir in s.dirs && objects != [] && Fetchable(env.server, objects[0])
    ensures CheckoutLoop(s, env, objects, destdir)
         == CheckoutLoop(Snapshot(s.files + Exports(env, objects[0], Some(destdir)), s.dirs, s.log + Diagnostics([objects[0]])),
                         env, objects[1..], destdir)
  {
    CheckoutObjectEffect(s, env, objects[0], destdir);
    CheckoutLoopCons(s, env, objects, destdir);
  }

  /** The fetchable objects before k write their files and log their diagnostics, and the loop goes on from k. */
  lemma {:induction false} CheckoutLoopSkip(s: Snapshot, env: Env, objects: seq<ObjectRef>, destdir: string, k: int)
    requires destdir in s.dirs
    requires 0 <= k <= |objects| && AllFetchable(env.server, objects[..k])
    ensures CheckoutLoop(s, env, objects, destdir)
         == CheckoutLoop(Snapshot(s.files + Written(env, objects[..k], destdir), s.dirs, s.log + Diagnostics(objects[..k])),
                         env, objects[k..], destdir)
    decreases k
  {
    if k == 0 {
      assert objects[..0] == [] && objects[0..] == objects;
      assert s.files + map[] == s.files;
      assert s.log + [] == s.log;
    } else {
      var rest := objects[1..];
      PrefixCons(env, objects, k, destdir);
      CheckoutLoopStep(s, env, objects, destdir);
      var e0, d0 := Exports(env, objects[0], Some(destdir)), Diagnostics([objects[0]]);
      var mid := Snapshot(s.files + e0, s.dirs, s.log + d0);
      CheckoutLoopSkip(mid, env, rest, destdir, k - 1);
      assert rest[k - 1..] == objects[k..];
      MapUnionAssoc(s.files, e0, Written(env, rest[..k - 1], destdir));
      assert (s.log + d0) + Diagnostics(rest[..k - 1]) == s.log + Diagnostics(objects[..k]);
    }
  }

  /** A loop whose first object fails ends with that object's step. */
  lemma CheckoutLoopFirstFails(s: Snapshot, env: Env, objects: seq<ObjectRef>, destdir: string)
    requires destdir in s.dirs && objects != [] && !Fetchable(env.server, objects[0])
    ensures CheckoutLoop(s, env, objects, destdir) == CheckoutObject(s, env, objects[0], destdir)
  {
    CheckoutObjectPassIff(s, env, objects[0], destdir);
  }

  /**
   * The loop stops at the first object that cannot be fetched: the objects
   * before it have written their files and logged their diagnostics, that
   * object runs its export from there, and no later object does anything.
   */
  lemma CheckoutLoopStopsAt(s: Snapshot, env: Env, objects: seq<ObjectRef>, destdir: string, k: int)
    requires destdir in s.dirs
    requires 0 <= k < |objects| && AllFetchable(env.server, objects[..k]) && !Fetchable(env.server, objects[k])
    ensures CheckoutLoop(s, env, objects, destdir)
         == CheckoutObject(Snapshot(s.files + Written(env, objects[..k], destdir), s.dirs, s.log + Diagnostics(objects[..k])),
                           env, objects[k], destdir)
  {
    var t := Snapshot(s.files + Written(env, objects[..k], destdir), s.dirs, s.log + Diagnostics(objects[..k]));
    CheckoutLoopSkip(s, env, objects, destdir, k);
    assert objects[k..][0] == objects[k];
    CheckoutLoopFirstFails(t, env, objects[k..], destdir);
  }

  /**
   * checkout_objects aborts at the first object that cannot be fetched: the
   * directory exists, the files of the objects before it remain with their
   * diagnostics logged, and that object's export runs from there.
   */
  lemma CheckoutObjectsStopsAt(s: Snapshot, env: Env, objects: seq<ObjectRef>, destdir: string, k: int)
    requires 0 <= k < |objects| && AllFetchable(env.server, objects[..k]) && !Fetchable(env.server, objects[k])
    ensures CheckoutObjects(s, env, objects, destdir)
         == CheckoutObject(Snapshot(s.files + Written(env, objects[..k], destdir), s.dirs + {destdir}, s.log + Diagnostics(objects[..k])),
                           env, objects[k], destdir)
  {
    var s0 := if destdir in s.dirs then s else s.(dirs := s.dirs + {destdir});
    assert s0 == Snapshot(s.files, s.dirs + {destdir}, s.log);
    CheckoutLoopStopsAt(s0, env, objects, destdir, k);
  }

  /**
   * checkout_objects always leaves destdir existing and no other directory
   * changed; a pre-existing destdir is left as it is and never makes it fail.
   * Only files inside destdir change.
   */
  lemma CheckoutObjectsFrame(s: Snapshot, env: Env, objects: seq<ObjectRef>, destdir: string)
    ensures var r := CheckoutObjects(s, env, objects, destdir);
      && r.state.dirs == s.dirs + {destdir}
      && (destdir in s.dirs ==> r.state.dirs == s.dirs)
      && ChangedOnlyUnder(s.files, r.state.files, destdir)
  {
    var s0 := if destdir in s.dirs then s else s.(dirs := s.dirs + {destdir});
    CheckoutLoopFrame(s0, env, objects, destdir);
  }

  /**
   * checkout_objects succeeds exactly when every export with an exporter can
   * be fetched (unsupported types never make it fail).
   */
  lemma CheckoutObjectsPassIff(s: Snapshot, env: Env, objects: seq<ObjectRef>, destdir: string)
    ensures CheckoutObjects(s, env, objects, destdir).outcome.Pass? <==> AllFetchable(env.server, objects)
  {
    var s0 := if destdir in s.dirs then s else s.(dirs := s.dirs + {destdir});
    CheckoutLoopPassIff(s0, env, objects, destdir);
  }

  /**
   * The partial-failure policy of checkout_objects: with every export
   * fetchable it succeeds, creates destdir if needed, writes exactly the
   * objects' files, and logs one `Unsupported object` line per unsupported
   * object in list order - as many lines as there are such objects.
   */
  lemma CheckoutObjectsSucceeds(s: Snapshot, env: Env, objects: seq<ObjectRef>, destdir: string)
    requires AllFetchable(env.server, objects)
    ensures CheckoutObjects(s, env, objects, destdir)
         == Step(Snapshot(s.files + Written(env, objects, destdir), s.dirs + {destdir}, s.log + Diagnostics(objects)), Pass)
    ensures |Diagnostics(objects)| == CountUnsupported(objects)
  {
    var s0 := if destdir in s.dirs then s else s.(dirs := s.dirs + {destdir});
    CheckoutLoopSucceeds(s0, env, objects, destdir);
    DiagnosticsCount(objects);
  }

  /**
   * Checking the same objects out again into the now existing directory
   * succeeds and leaves the same files and directories: every file is
   * overwritten with the same content.
   */
  lemma CheckoutObjectsRerun(s: Snapshot, env: Env, objects: seq<ObjectRef>, destdir: string)
    requires AllFetchable(env.server, objects)
    ensures var first := CheckoutObjects(s, env, objects, destdir);
      var second := CheckoutObjects(first.state, env, objects, destdir);
      && second.outcome == Pass
      && second.state.files == first.state.files
      && second.state.dirs == first.state.dirs
      && second.state.log == first.state.log + Diagnostics(objects)
  {
    CheckoutObjectsSucceeds(s, env, objects, destdir);
    var first := CheckoutObjects(s, env, objects, destdir);
    CheckoutObjectsSucceeds(first.state, env, objects, destdir);
    var w := Written(env, objects, destdir);
    assert (s.files + w) + w == s.files + w;
  }
}
