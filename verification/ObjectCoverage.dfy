/**
 * Coverage records weighed against the job store (extensions/negative-bar.ts,
 * contains and computeObjectCoverage): which jobs stand behind a record, the
 * units an object breaks into, and exactly when every one of them was handed
 * to some job.
 */
module ObjectCoverage {
  import opened Wrappers

  type Ref = string
  type JobId = string

  datatype Member = Member(gen: string, n: string)

  /** What a reference resolves to; a catalogue member has `member`, and only a file has `sha`. */
  datatype Obj = Obj(path: string, dir: bool, sha: Option<string>, member: Option<Member>)

  datatype Gen = Gen(id: string, job: Option<JobId>, target: Option<Ref>)

  datatype Job = Job(declares: bool, inputs: seq<Ref>, status: Option<string>)

  datatype Completion = Complete | Partial | Failed

  datatype Entry = Entry(num: nat, absence: bool, completion: Option<Completion>, refs: seq<Ref>)

  datatype InputFile = InputFile(path: string, sha: Option<string>)

  /** The run as the hub reads it: refs located, jobs and entries they name, the store's job records, the catalogue and the inventory. */
  datatype Run = Run(
    objectOf: Ref -> Option<Obj>, jobOf: Ref -> Option<JobId>, entryOf: Ref -> Option<nat>, unresolved: Ref -> bool,
    jobs: map<JobId, Job>, gens: seq<Gen>, inputs: seq<InputFile>)

  /** A coverage record: the objects it names, its results, and the entries and interpretations they may lead to. */
  datatype Record = Record(
    objects: seq<Ref>, results: seq<Ref>, entries: map<nat, Entry>, interpretations: map<JobId, seq<nat>>)

  datatype What = Named(ref: Ref) | File(path: string) | Generation(id: string, ref: Ref)

  datatype Unit = Unit(what: What, covered: bool)

  datatype Why = SearchWas(num: nat) | NoRecord(job: JobId) | DidNotSucceed(job: JobId) | NoJob | NoObject | NotCovered(what: What)

  predicate Under(path: string, dir: string) {
    dir + "/" <= path
  }

  /** One object reaches another: the same path or one below it, the catalogue over its members, or the same content. */
  predicate Contains(outer: Obj, inner: Obj) {
    || outer.path == inner.path
    || (inner.member.Some? && outer.dir
        && (outer.path == "catalog" || outer.path == "catalog/gen" || outer.path == "catalog/gen/" + inner.member.value.gen))
    || (outer.dir && Under(inner.path, outer.path))
    || (outer.dir && outer.path == "inputs" && Under(inner.path, "inputs"))
    || (outer.sha.Some? && outer.sha == inner.sha)
    || (outer.member.Some? && outer.member == inner.member)
  }

  /** Below a directory means: its path, a slash, and a name; so a sibling whose name only begins the same is not below it. */
  lemma UnderMeans(path: string, dir: string)
    ensures Under(path, dir) <==> exists rest: string :: path == dir + "/" + rest
    ensures Under(path, dir) <==> |path| > |dir| && path[..|dir|] == dir && path[|dir|] == '/'
  {
    if Under(path, dir) {
      assert path == dir + "/" + path[|dir| + 1..];
      assert (dir + "/")[|dir|] == '/';
    }
    if |path| > |dir| && path[..|dir|] == dir && path[|dir|] == '/' {
      assert path[..|dir| + 1] == dir + "/";
    }
  }

  /** A file reaches itself by its place, the same bytes wherever they are, and the same catalogue member; nothing else. */
  lemma FileReaches(outer: Obj, inner: Obj)
    requires !outer.dir
    ensures Contains(outer, inner) <==>
              || inner.path == outer.path
              || (inner.sha.Some? && outer.sha.Some? && inner.sha.value == outer.sha.value)
              || (inner.member.Some? && outer.member.Some? && inner.member.value == outer.member.value)
  {
  }

  /** The directories a catalogue member is in: its generation's, and those over it. */
  predicate CatalogueOver(path: string, gen: string) {
    path in {"catalog", "catalog/gen", "catalog/gen/" + gen}
  }

  /** A directory, which has no digest and is no member, reaches what stands at its place or below it, and a catalogue directory its members. */
  lemma DirectoryReaches(outer: Obj, inner: Obj)
    requires outer.dir && outer.sha.None? && outer.member.None?
    ensures Contains(outer, inner) <==>
              || inner.path == outer.path
              || (exists rest: string :: inner.path == outer.path + "/" + rest)
              || (inner.member.Some? && CatalogueOver(outer.path, inner.member.value.gen))
  {
    UnderMeans(inner.path, outer.path);
  }

  /** What a directory reaches by place, a directory that reaches it reaches too. */
  lemma ReachesThrough(a: Obj, b: Obj, c: Obj)
    requires a.dir && b.dir && Contains(a, b) && Contains(b, c)
    requires a.sha.None? && a.member.None? && b.sha.None? && b.member.None? && c.member.None?
    ensures Contains(a, c)
  {
    if Under(b.path, a.path) && Under(c.path, b.path) { UnderUnder(c.path, b.path, a.path); }
  }

  // --- what a record rests on ---

  ghost predicate NamesJob(run: Run, refs: seq<Ref>, job: JobId) {
    exists r :: r in refs && run.jobOf(r) == Some(job)
  }

  /** An entry the results cite. */
  ghost predicate Cites(run: Run, rec: Record, refs: seq<Ref>, e: Entry) {
    exists r :: r in refs && run.entryOf(r).Some? && run.entryOf(r).value in rec.entries && rec.entries[run.entryOf(r).value] == e
  }

  ghost predicate Interprets(rec: Record, job: JobId, e: Entry) {
    job in rec.interpretations && e.num in rec.interpretations[job]
  }

  /** The job can be reached from the record: from a result directly, or through an entry that a result cites. */
  ghost predicate Behind(run: Run, rec: Record, job: JobId) {
    || NamesJob(run, rec.results, job)
    || exists e :: Cites(run, rec, rec.results, e) && LeadsTo(run, rec, e, job)
  }

  ghost predicate LeadsTo(run: Run, rec: Record, e: Entry, job: JobId) {
    NamesJob(run, e.refs, job) || Interprets(rec, job, e)
  }

  predicate Succeeded(j: Job) {
    j.status.None? || j.status.value == "" || j.status.value == "ok"
  }

  ghost predicate AllSucceeded(run: Run, jobs: set<JobId>) {
    forall j :: j in jobs ==> j in run.jobs && Succeeded(run.jobs[j])
  }

  predicate WasWhole(e: Entry) {
    e.absence && e.completion.Some? ==> e.completion.value.Complete?
  }

  /** One of the jobs lists an input that contains the unit. */
  ghost predicate Declared(run: Run, jobs: set<JobId>, unit: Obj) {
    exists j, d :: DeclaredBy(run, jobs, j, d) && Contains(run.objectOf(d).value, unit)
  }

  ghost predicate DeclaredBy(run: Run, jobs: set<JobId>, j: JobId, d: Ref) {
    j in jobs && j in run.jobs && run.jobs[j].declares && d in run.jobs[j].inputs && run.objectOf(d).Some?
  }

  ghost predicate ReadAll(run: Run, jobs: set<JobId>) {
    exists j :: j in jobs && j in run.jobs && !run.jobs[j].declares
  }

  ghost predicate Covered(run: Run, jobs: set<JobId>, unit: Obj) {
    ReadAll(run, jobs) || Declared(run, jobs, unit)
  }

  function OutOf(job: JobId): string {
    "store/jobs/" + job + "/out"
  }

  /** The output of the job that made a generation was declared whole. */
  ghost predicate OutputDeclared(run: Run, jobs: set<JobId>, job: Option<JobId>) {
    job.Some? && exists j, d :: DeclaredBy(run, jobs, j, d) && run.objectOf(d).value.dir && run.objectOf(d).value.path == OutOf(job.value)
  }

  /** The first generation of an id, if there is one. */
  function GenOf(gens: seq<Gen>, id: string): (g: Option<Gen>)
    ensures g.Some? ==> g.value in gens && g.value.id == id
    ensures g.Some? ==> exists i :: 0 <= i < |gens| && gens[i] == g.value && forall j :: 0 <= j < i ==> gens[j].id != id
    ensures g.None? ==> forall x :: x in gens ==> x.id != id
  {
    if gens == [] then None else if gens[0].id == id then Some(gens[0]) else GenOf(gens[1..], id)
  }

  /** A catalogue member: itself, its generation's container, or the output its generation was made from. */
  ghost predicate MemberCovered(run: Run, jobs: set<JobId>, obj: Obj)
    requires obj.member.Some?
  {
    var g := GenOf(run.gens, obj.member.value.gen);
    || Covered(run, jobs, obj)
    || (g.Some? && g.value.target.Some? && run.objectOf(g.value.target.value).Some?
        && Declared(run, jobs, run.objectOf(g.value.target.value).value))
    || (g.Some? && OutputDeclared(run, jobs, g.value.job))
  }

  predicate EvidenceDir(obj: Obj) {
    obj.dir && "inputs" <= obj.path
  }

  predicate InDir(f: InputFile, obj: Obj) {
    obj.path == "inputs" || Under(f.path, obj.path)
  }

  function FileObj(f: InputFile): Obj {
    Obj(f.path, false, f.sha, None)
  }

  /** A directory of the evidence: covered whole, or every file the inventory lists in it, and it lists some. */
  ghost predicate DirCovered(run: Run, jobs: set<JobId>, obj: Obj) {
    || Covered(run, jobs, obj)
    || (&& (exists f :: f in run.inputs && InDir(f, obj))
        && forall f :: f in run.inputs && InDir(f, obj) ==> Covered(run, jobs, FileObj(f)))
  }

  /** A generation catalogued from this object, or from one inside it. */
  predicate GenInside(run: Run, g: Gen, obj: Obj) {
    g.target.Some? && run.objectOf(g.target.value).Some?
    && var t := run.objectOf(g.target.value).value;
       t.path == obj.path || (t.sha.Some? && t.sha == obj.sha) || (obj.dir && Under(t.path, obj.path))
  }

  ghost predicate GenCovered(run: Run, jobs: set<JobId>, g: Gen, obj: Obj)
    requires GenInside(run, g, obj)
  {
    Covered(run, jobs, run.objectOf(g.target.value).value) || Covered(run, jobs, obj) || OutputDeclared(run, jobs, g.job)
  }

  /** Every unit of a named object: itself (or its files), and each generation inside it. */
  ghost predicate AllCovered(run: Run, jobs: set<JobId>, ref: Ref) {
    && !run.unresolved(ref) && run.objectOf(ref).Some?
    && var obj := run.objectOf(ref).value;
       if obj.member.Some? then MemberCovered(run, jobs, obj)
       else
         && (if EvidenceDir(obj) then DirCovered(run, jobs, obj) else Covered(run, jobs, obj))
         && forall g :: g in run.gens && GenInside(run, g, obj) ==> GenCovered(run, jobs, g, obj)
  }

  /**
   * A record is complete over some jobs when it names an object, every unit of
   * every object is covered, there is a job, none is without a record or
   * failed, and no search it cites was partial.
   */
  ghost predicate IsComplete(run: Run, rec: Record, jobs: set<JobId>) {
    && rec.objects != [] && jobs != {}
    && (forall ref :: ref in rec.objects ==> AllCovered(run, jobs, ref))
    && AllSucceeded(run, jobs)
    && (forall e :: Cites(run, rec, rec.results, e) ==> WasWhole(e))
  }

  /** The path begins with the name of the evidence. */
  predicate OfEvidence(path: string) {
    |path| >= 6 && path[..6] == "inputs"
  }

  /** The inventory file is in the directory: anything is in inputs, else its path is the directory's, a slash, and more. */
  ghost predicate FileIn(f: InputFile, dir: Obj) {
    dir.path != "inputs" ==> exists rest: string :: f.path == dir.path + "/" + rest
  }

  /** What the generation was made from is the object, has its digest, or is below it. */
  ghost predicate MadeFrom(run: Run, g: Gen, t: Obj, obj: Obj) {
    && g.target.Some? && run.objectOf(g.target.value) == Some(t)
    && (t.path == obj.path || (t.sha.Some? && obj.sha.Some? && t.sha.value == obj.sha.value)
        || (obj.dir && exists rest: string :: t.path == obj.path + "/" + rest))
  }

  /** The output directory of the job that made a generation was declared. */
  ghost predicate OutDeclared(run: Run, jobs: set<JobId>, maker: JobId) {
    exists j, d, out :: DeclaredAs(run, jobs, j, d, out) && out.dir && out.path == "store/jobs/" + maker + "/out"
  }

  ghost predicate DeclaredAs(run: Run, jobs: set<JobId>, j: JobId, d: Ref, out: Obj) {
    j in jobs && j in run.jobs && run.jobs[j].declares && d in run.jobs[j].inputs && run.objectOf(d) == Some(out)
  }

  lemma OutputMeans(run: Run, jobs: set<JobId>, maker: JobId)
    ensures OutputDeclared(run, jobs, Some(maker)) <==> OutDeclared(run, jobs, maker)
  {
    if OutputDeclared(run, jobs, Some(maker)) {
      var j, d :| DeclaredBy(run, jobs, j, d) && run.objectOf(d).value.dir && run.objectOf(d).value.path == OutOf(maker);
      assert DeclaredAs(run, jobs, j, d, run.objectOf(d).value);
    }
    if OutDeclared(run, jobs, maker) {
      var j, d, out :| DeclaredAs(run, jobs, j, d, out) && out.dir && out.path == "store/jobs/" + maker + "/out";
      assert DeclaredBy(run, jobs, j, d);
    }
  }

  /** A directory of the evidence no job was given as one: each of its files was, and it has some. Any other object: it was itself. */
  lemma WholeOrByFile(run: Run, jobs: set<JobId>, ref: Ref)
    requires AllCovered(run, jobs, ref) && run.objectOf(ref).value.member.None? && !Covered(run, jobs, run.objectOf(ref).value)
    ensures var obj := run.objectOf(ref).value;
            && obj.dir && OfEvidence(obj.path)
            && (exists f :: f in run.inputs && FileIn(f, obj))
            && forall f :: f in run.inputs && FileIn(f, obj) ==> Covered(run, jobs, Obj(f.path, false, f.sha, None))
  {
    var obj := run.objectOf(ref).value;
    forall f ensures FileIn(f, obj) <==> InDir(f, obj) {
      UnderMeans(f.path, obj.path);
    }
  }

  /** And files given one by one are enough for a directory of the evidence nothing was catalogued from. */
  lemma FilesAreEnough(run: Run, jobs: set<JobId>, ref: Ref)
    requires !run.unresolved(ref) && run.objectOf(ref).Some?
    requires var obj := run.objectOf(ref).value;
             && obj.member.None? && obj.dir && OfEvidence(obj.path) && (exists f :: f in run.inputs && FileIn(f, obj))
             && (forall f :: f in run.inputs && FileIn(f, obj) ==> Covered(run, jobs, Obj(f.path, false, f.sha, None)))
             && forall g, t :: g in run.gens ==> !MadeFrom(run, g, t, obj)
    ensures AllCovered(run, jobs, ref)
  {
    var obj := run.objectOf(ref).value;
    forall f ensures FileIn(f, obj) <==> InDir(f, obj) {
      UnderMeans(f.path, obj.path);
    }
    forall g | g in run.gens ensures !GenInside(run, g, obj) {
      if GenInside(run, g, obj) {
        UnderMeans(run.objectOf(g.target.value).value.path, obj.path);
        assert MadeFrom(run, g, run.objectOf(g.target.value).value, obj);
      }
    }
  }

  /** Each generation catalogued from an object is covered too: by what it was made from, by the object, or by its maker's output. */
  lemma GenerationsToo(run: Run, jobs: set<JobId>, ref: Ref, g: Gen, t: Obj)
    requires AllCovered(run, jobs, ref) && run.objectOf(ref).value.member.None?
    requires g in run.gens && MadeFrom(run, g, t, run.objectOf(ref).value)
    ensures Covered(run, jobs, t) || Covered(run, jobs, run.objectOf(ref).value) || (g.job.Some? && OutDeclared(run, jobs, g.job.value))
  {
    UnderMeans(t.path, run.objectOf(ref).value.path);
    if g.job.Some? { OutputMeans(run, jobs, g.job.value); }
  }

  // --- the computation ---

  /** The jobs the refs name, added to those found so far. */
  method AddJobs(run: Run, refs: seq<Ref>, found: set<JobId>) returns (ids: set<JobId>)
    ensures forall j :: j in ids <==> j in found || NamesJob(run, refs, j)
  {
    ids := found;
    for i := 0 to |refs|
      invariant forall j :: j in ids <==> j in found || NamesJob(run, refs[..i], j)
    {
      var job := run.jobOf(refs[i]);
      NamesJobAppend(run, refs[..i], refs[i]);
      assert refs[..i + 1] == refs[..i] + [refs[i]];
      if job.Some? { ids := ids + {job.value}; }
    }
    assert refs[..|refs|] == refs;
  }

  lemma NamesJobAppend(run: Run, refs: seq<Ref>, r: Ref)
    ensures forall j :: NamesJob(run, refs + [r], j) <==> NamesJob(run, refs, j) || run.jobOf(r) == Some(j)
  {
    forall j | NamesJob(run, refs, j) || run.jobOf(r) == Some(j) ensures NamesJob(run, refs + [r], j) {
      if run.jobOf(r) == Some(j) {
        assert r in refs + [r];
      } else {
        var x :| x in refs && run.jobOf(x) == Some(j);
        assert x in refs + [r];
      }
    }
  }

  /** The entries the results cite. */
  method CitedEntries(run: Run, rec: Record) returns (cited: seq<Entry>)
    ensures forall e :: e in cited <==> Cites(run, rec, rec.results, e)
  {
    cited := [];
    for i := 0 to |rec.results|
      invariant forall e :: e in cited <==> Cites(run, rec, rec.results[..i], e)
    {
      var r := rec.results[i];
      var num := run.entryOf(r);
      CitesAppend(run, rec, rec.results[..i], r);
      assert rec.results[..i + 1] == rec.results[..i] + [r];
      if num.Some? && num.value in rec.entries { cited := cited + [rec.entries[num.value]]; }
    }
    assert rec.results[..|rec.results|] == rec.results;
  }

  lemma CitesAppend(run: Run, rec: Record, refs: seq<Ref>, r: Ref)
    ensures forall e :: Cites(run, rec, refs + [r], e) <==>
              Cites(run, rec, refs, e) || (run.entryOf(r).Some? && run.entryOf(r).value in rec.entries && rec.entries[run.entryOf(r).value] == e)
  {
    forall e | Cites(run, rec, refs, e) ensures Cites(run, rec, refs + [r], e) {
      var x :| x in refs && run.entryOf(x).Some? && run.entryOf(x).value in rec.entries && rec.entries[run.entryOf(x).value] == e;
      assert x in refs + [r];
    }
    assert r in refs + [r];
  }

  /** The jobs an entry interprets, added to those found so far. */
  method AddInterpreted(rec: Record, e: Entry, found: set<JobId>) returns (ids: set<JobId>)
    ensures forall j :: j in ids <==> j in found || Interprets(rec, j, e)
  {
    ids := found + set j | j in rec.interpretations && e.num in rec.interpretations[j];
  }

  /** The jobs behind the record, and the entries its results cite. */
  method JobsBehind(run: Run, rec: Record) returns (ids: set<JobId>, cited: seq<Entry>)
    ensures forall j :: j in ids <==> Behind(run, rec, j)
    ensures forall e :: e in cited <==> Cites(run, rec, rec.results, e)
  {
    cited := CitedEntries(run, rec);
    ids := AddJobs(run, rec.results, {});
    for i := 0 to |cited|
      invariant forall j :: j in ids <==> NamesJob(run, rec.results, j) || Led(run, rec, cited[..i], j)
    {
      ids := AddJobs(run, cited[i].refs, ids);
      ids := AddInterpreted(rec, cited[i], ids);
      LedAppend(run, rec, cited[..i], cited[i]);
      assert cited[..i + 1] == cited[..i] + [cited[i]];
    }
    assert cited[..|cited|] == cited;
  }

  ghost predicate Led(run: Run, rec: Record, cited: seq<Entry>, j: JobId) {
    exists e :: e in cited && LeadsTo(run, rec, e, j)
  }

  lemma LedAppend(run: Run, rec: Record, cited: seq<Entry>, e: Entry)
    ensures forall j :: Led(run, rec, cited + [e], j) <==> Led(run, rec, cited, j) || LeadsTo(run, rec, e, j)
  {
    forall j | Led(run, rec, cited, j) ensures Led(run, rec, cited + [e], j) {
      var x :| x in cited && LeadsTo(run, rec, x, j);
      assert x in cited + [e];
    }
    assert e in cited + [e];
  }

  /** What the jobs were given: whether one read everything, and the objects the others declared. */
  ghost predicate Given(run: Run, ids: set<JobId>, everything: bool, declared: seq<Obj>) {
    && (everything <==> ReadAll(run, ids))
    && forall o :: o in declared <==> IsDeclared(run, ids, o)
  }

  ghost predicate IsDeclared(run: Run, ids: set<JobId>, o: Obj) {
    exists j, d :: DeclaredBy(run, ids, j, d) && run.objectOf(d).value == o
  }

  ghost predicate Lists(run: Run, job: Job, o: Obj) {
    exists d :: d in job.inputs && run.objectOf(d) == Some(o)
  }

  method AddDeclared(run: Run, job: Job, found: seq<Obj>) returns (declared: seq<Obj>)
    ensures forall o :: o in declared <==> o in found || Lists(run, job, o)
  {
    declared := found;
    for i := 0 to |job.inputs|
      invariant forall o :: o in declared <==> o in found || exists k :: 0 <= k < i && run.objectOf(job.inputs[k]) == Some(o)
    {
      var at := run.objectOf(job.inputs[i]);
      if at.Some? { declared := declared + [at.value]; }
    }
    forall o ensures Lists(run, job, o) <==> exists k :: 0 <= k < |job.inputs| && run.objectOf(job.inputs[k]) == Some(o) {
      if k :| 0 <= k < |job.inputs| && run.objectOf(job.inputs[k]) == Some(o) {
        assert job.inputs[k] in job.inputs;
      }
      if d :| d in job.inputs && run.objectOf(d) == Some(o) {
        var k :| 0 <= k < |job.inputs| && job.inputs[k] == d;
      }
    }
  }

  /** One more job read. */
  lemma GivenMore(run: Run, ids: set<JobId>, id: JobId, everything: bool, declared: seq<Obj>, more: seq<Obj>)
    requires Given(run, ids, everything, declared) && id in run.jobs
    requires forall o :: o in more <==> (o in declared || (run.jobs[id].declares && Lists(run, run.jobs[id], o)))
    ensures Given(run, ids + {id}, everything || !run.jobs[id].declares, more)
  {
    var all := ids + {id};
    assert id in all;
    if ReadAll(run, ids) {
      var j :| j in ids && j in run.jobs && !run.jobs[j].declares;
      assert j in all;
    }
    forall o ensures o in more <==> IsDeclared(run, all, o) {
      if o in declared {
        var j, d :| DeclaredBy(run, ids, j, d) && run.objectOf(d).value == o;
        assert DeclaredBy(run, all, j, d);
      } else if o in more {
        var d :| d in run.jobs[id].inputs && run.objectOf(d) == Some(o);
        assert DeclaredBy(run, all, id, d);
      }
      if IsDeclared(run, all, o) {
        var j, d :| DeclaredBy(run, all, j, d) && run.objectOf(d).value == o;
        if j != id { assert DeclaredBy(run, ids, j, d); }
      }
    }
  }

  /** What the records of some jobs come to: which are there, what they gave, and whether anything is wrong with them. */
  ghost predicate Tally(run: Run, ids: set<JobId>, recorded: set<JobId>, everything: bool, declared: seq<Obj>, faulty: bool) {
    && (forall j :: j in recorded <==> j in ids && j in run.jobs)
    && Given(run, ids, everything, declared)
    && (faulty <==> !AllSucceeded(run, ids))
  }

  lemma NoneTallied(run: Run)
    ensures Tally(run, {}, {}, false, [], false)
  {
  }

  /** The jobs' records read: what they were given, and what is wrong with them. */
  method ReadJobs(run: Run, ids: set<JobId>) returns (recorded: set<JobId>, everything: bool, declared: seq<Obj>, why: seq<Why>)
    ensures Tally(run, ids, recorded, everything, declared, why != [])
  {
    recorded, everything, declared, why := {}, false, [], [];
    NoneTallied(run);
    var left := ids;
    ghost var done: set<JobId> := {};
    while left != {}
      invariant done + left == ids
      invariant Tally(run, done, recorded, everything, declared, why != [])
      decreases |left|
    {
      var id :| id in left;
      left := left - {id};
      recorded, everything, declared, why := ReadJob(run, done, id, recorded, everything, declared, why);
      done := done + {id};
    }
  }

  /** One job's record read, after those of the jobs already read. */
  method ReadJob(run: Run, ghost done: set<JobId>, id: JobId, recorded: set<JobId>, everything: bool, declared: seq<Obj>, why: seq<Why>)
    returns (nowRecorded: set<JobId>, nowEverything: bool, nowDeclared: seq<Obj>, nowWhy: seq<Why>)
    requires Tally(run, done, recorded, everything, declared, why != [])
    ensures Tally(run, done + {id}, nowRecorded, nowEverything, nowDeclared, nowWhy != [])
  {
    nowRecorded, nowEverything, nowDeclared, nowWhy := recorded, everything, declared, why;
    SucceededMore(run, done, id);
    if id !in run.jobs {
      GivenUnrecorded(run, done, id, everything, declared);
      nowWhy := why + [NoRecord(id)];
      return;
    }
    var job := run.jobs[id];
    if job.declares { nowDeclared := AddDeclared(run, job, declared); }
    GivenMore(run, done, id, everything, declared, nowDeclared);
    nowEverything, nowRecorded := everything || !job.declares, recorded + {id};
    if !Succeeded(job) { nowWhy := why + [DidNotSucceed(id)]; }
  }

  lemma SucceededMore(run: Run, ids: set<JobId>, id: JobId)
    ensures AllSucceeded(run, ids + {id}) <==> AllSucceeded(run, ids) && id in run.jobs && Succeeded(run.jobs[id])
  {
    if AllSucceeded(run, ids + {id}) {
      assert id in ids + {id};
      forall j | j in ids ensures j in run.jobs && Succeeded(run.jobs[j]) {
        assert j in ids + {id};
      }
    }
  }

  lemma GivenUnrecorded(run: Run, ids: set<JobId>, id: JobId, everything: bool, declared: seq<Obj>)
    requires Given(run, ids, everything, declared) && id !in run.jobs
    ensures Given(run, ids + {id}, everything, declared)
  {
    var all := ids + {id};
    if ReadAll(run, ids) {
      var j :| j in ids && j in run.jobs && !run.jobs[j].declares;
      assert j in all;
    }
    forall o ensures IsDeclared(run, ids, o) <==> IsDeclared(run, all, o) {
      if IsDeclared(run, ids, o) {
        var j, d :| DeclaredBy(run, ids, j, d) && run.objectOf(d).value == o;
        assert DeclaredBy(run, all, j, d);
      }
      if IsDeclared(run, all, o) {
        var j, d :| DeclaredBy(run, all, j, d) && run.objectOf(d).value == o;
        assert DeclaredBy(run, ids, j, d);
      }
    }
  }

  /** Whether a unit is covered by what the jobs were given. */
  predicate Held(declared: seq<Obj>, unit: Obj) {
    exists d :: d in declared && Contains(d, unit)
  }

  predicate HeldOutput(declared: seq<Obj>, job: Option<JobId>) {
    job.Some? && exists d :: d in declared && d.dir && d.path == OutOf(job.value)
  }

  lemma HeldMeans(run: Run, ids: set<JobId>, everything: bool, declared: seq<Obj>, unit: Obj)
    requires Given(run, ids, everything, declared)
    ensures Held(declared, unit) <==> Declared(run, ids, unit)
    ensures everything || Held(declared, unit) <==> Covered(run, ids, unit)
  {
    if Held(declared, unit) {
      var o :| o in declared && Contains(o, unit);
      assert IsDeclared(run, ids, o);
    }
    if Declared(run, ids, unit) {
      var j, d :| DeclaredBy(run, ids, j, d) && Contains(run.objectOf(d).value, unit);
      assert IsDeclared(run, ids, run.objectOf(d).value);
    }
  }

  lemma HeldOutputMeans(run: Run, ids: set<JobId>, everything: bool, declared: seq<Obj>, job: Option<JobId>)
    requires Given(run, ids, everything, declared)
    ensures HeldOutput(declared, job) <==> OutputDeclared(run, ids, job)
  {
    if HeldOutput(declared, job) {
      var o :| o in declared && o.dir && o.path == OutOf(job.value);
      assert IsDeclared(run, ids, o);
    }
    if OutputDeclared(run, ids, job) {
      var j, d :| DeclaredBy(run, ids, j, d) && run.objectOf(d).value.dir && run.objectOf(d).value.path == OutOf(job.value);
      assert IsDeclared(run, ids, run.objectOf(d).value);
    }
  }

  predicate AllIn(units: seq<Unit>) {
    forall u :: u in units ==> u.covered
  }

  /** The files of an evidence directory that was not covered whole. */
  method FileUnits(run: Run, ghost ids: set<JobId>, everything: bool, declared: seq<Obj>, ref: Ref, obj: Obj) returns (units: seq<Unit>)
    requires Given(run, ids, everything, declared) && !Covered(run, ids, obj)
    ensures AllIn(units) <==> DirCovered(run, ids, obj)
    ensures forall f :: f in run.inputs && InDir(f, obj) ==> Unit(File(f.path), everything || Held(declared, FileObj(f))) in units
  {
    units := [];
    for i := 0 to |run.inputs|
      invariant units == [] <==> forall f :: f in run.inputs[..i] ==> !InDir(f, obj)
      invariant AllIn(units) <==> forall f :: f in run.inputs[..i] && InDir(f, obj) ==> Covered(run, ids, FileObj(f))
      invariant forall f :: f in run.inputs[..i] && InDir(f, obj) ==> Unit(File(f.path), everything || Held(declared, FileObj(f))) in units
    {
      var f := run.inputs[i];
      assert run.inputs[..i + 1] == run.inputs[..i] + [f];
      assert f in run.inputs[..i + 1];
      if InDir(f, obj) {
        HeldMeans(run, ids, everything, declared, FileObj(f));
        AllInAppend(units, Unit(File(f.path), everything || Held(declared, FileObj(f))));
        units := units + [Unit(File(f.path), everything || Held(declared, FileObj(f)))];
      }
    }
    assert run.inputs[..|run.inputs|] == run.inputs;
    if units == [] {
      units := [Unit(Named(ref), false)];
      assert units[0] in units;
    }
  }

  lemma AllInAppend(units: seq<Unit>, u: Unit)
    ensures AllIn(units + [u]) <==> AllIn(units) && u.covered
  {
    assert u in units + [u];
    forall x | x in units ensures x in units + [u] {}
  }

  lemma AllInBoth(a: seq<Unit>, b: seq<Unit>)
    ensures AllIn(a + b) <==> AllIn(a) && AllIn(b)
  {
    forall x | x in a || x in b ensures x in a + b {}
  }

  /** The generations catalogued from an object or from one inside it. */
  method GenUnits(run: Run, ghost ids: set<JobId>, everything: bool, declared: seq<Obj>, obj: Obj) returns (units: seq<Unit>)
    requires Given(run, ids, everything, declared)
    ensures AllIn(units) <==> forall g :: g in run.gens && GenInside(run, g, obj) ==> GenCovered(run, ids, g, obj)
    ensures forall g :: g in run.gens && GenInside(run, g, obj) ==> exists u :: u in units && u.what == Generation(g.id, g.target.value)
  {
    units := [];
    HeldMeans(run, ids, everything, declared, obj);
    for i := 0 to |run.gens|
      invariant AllIn(units) <==> forall g :: g in run.gens[..i] && GenInside(run, g, obj) ==> GenCovered(run, ids, g, obj)
      invariant forall g :: g in run.gens[..i] && GenInside(run, g, obj) ==> exists u :: u in units && u.what == Generation(g.id, g.target.value)
    {
      var g := run.gens[i];
      assert run.gens[..i + 1] == run.gens[..i] + [g];
      assert g in run.gens[..i + 1];
      if GenInside(run, g, obj) {
        var target := run.objectOf(g.target.value).value;
        HeldMeans(run, ids, everything, declared, target);
        HeldOutputMeans(run, ids, everything, declared, g.job);
        var covered := everything || Held(declared, target) || Held(declared, obj) || HeldOutput(declared, g.job);
        var u := Unit(Generation(g.id, g.target.value), covered);
        AllInAppend(units, u);
        assert u in units + [u] && forall x :: x in units ==> x in units + [u];
        units := units + [u];
      }
    }
    assert run.gens[..|run.gens|] == run.gens;
  }

  /** One named object's units: all covered exactly when the object is. */
  method ObjectUnits(run: Run, ghost ids: set<JobId>, everything: bool, declared: seq<Obj>, ref: Ref) returns (units: seq<Unit>)
    requires Given(run, ids, everything, declared)
    ensures AllIn(units) <==> AllCovered(run, ids, ref)
  {
    if run.unresolved(ref) || run.objectOf(ref).None? {
      units := [Unit(Named(ref), false)];
      assert units[0] in units;
      return;
    }
    var obj := run.objectOf(ref).value;
    HeldMeans(run, ids, everything, declared, obj);
    if obj.member.Some? {
      var g := GenOf(run.gens, obj.member.value.gen);
      var covered := everything || Held(declared, obj);
      if !covered && g.Some? && g.value.target.Some? && run.objectOf(g.value.target.value).Some? {
        HeldMeans(run, ids, everything, declared, run.objectOf(g.value.target.value).value);
        covered := Held(declared, run.objectOf(g.value.target.value).value);
      }
      if !covered && g.Some? {
        HeldOutputMeans(run, ids, everything, declared, g.value.job);
        covered := HeldOutput(declared, g.value.job);
      }
      AllInAppend([], Unit(Named(ref), covered));
      assert [] + [Unit(Named(ref), covered)] == [Unit(Named(ref), covered)];
      return [Unit(Named(ref), covered)];
    }
    var own := [Unit(Named(ref), everything || Held(declared, obj))];
    AllInAppend([], own[0]);
    assert [] + own == own;
    if EvidenceDir(obj) && !own[0].covered {
      own := FileUnits(run, ids, everything, declared, ref, obj);
    }
    var inside := GenUnits(run, ids, everything, declared, obj);
    AllInBoth(own, inside);
    units := own + inside;
  }

  /**
   * The verdict on a record, with the units it rests on and the reasons it is
   * partial: complete exactly when every unit of every object it names is
   * covered by the jobs behind it, and nothing about those jobs or the searches
   * it cites is against it.
   */
  method ComputeObjectCoverage(run: Run, rec: Record)
    returns (complete: bool, units: seq<Unit>, behind: set<JobId>, why: seq<Why>)
    ensures forall j :: j in behind <==> Behind(run, rec, j)
    ensures complete <==> IsComplete(run, rec, behind)
    ensures complete <==> why == []
    ensures complete ==> AllIn(units)
  {
    var cited;
    behind, cited := JobsBehind(run, rec);
    why := SearchesAgainst(run, rec, cited);
    var recorded, everything, declared, faults := ReadJobs(run, behind);
    why := why + faults;
    if recorded == {} { why := why + [NoJob]; }
    units := [];
    for i := 0 to |rec.objects|
      invariant AllIn(units) <==> forall ref :: ref in rec.objects[..i] ==> AllCovered(run, behind, ref)
    {
      var more := ObjectUnits(run, behind, everything, declared, rec.objects[i]);
      AllInBoth(units, more);
      assert rec.objects[..i + 1] == rec.objects[..i] + [rec.objects[i]];
      assert rec.objects[i] in rec.objects[..i + 1];
      units := units + more;
    }
    assert rec.objects[..|rec.objects|] == rec.objects;
    if rec.objects == [] { why := why + [NoObject]; }
    var missing := Missing(units);
    why := why + missing;
    complete := why == [];
  }

  method SearchesAgainst(run: Run, rec: Record, cited: seq<Entry>) returns (why: seq<Why>)
    requires forall e :: e in cited <==> Cites(run, rec, rec.results, e)
    ensures why == [] <==> forall e :: Cites(run, rec, rec.results, e) ==> WasWhole(e)
  {
    why := [];
    for i := 0 to |cited|
      invariant why == [] <==> forall k :: 0 <= k < i ==> WasWhole(cited[k])
    {
      if !WasWhole(cited[i]) { why := why + [SearchWas(cited[i].num)]; }
    }
    if forall k :: 0 <= k < |cited| ==> WasWhole(cited[k]) {
      forall e | Cites(run, rec, rec.results, e) ensures WasWhole(e) {
        assert e in cited;
      }
    } else {
      var k :| 0 <= k < |cited| && !WasWhole(cited[k]);
      assert cited[k] in cited;
    }
  }

  method Missing(units: seq<Unit>) returns (why: seq<Why>)
    ensures why == [] <==> AllIn(units)
  {
    why := [];
    for i := 0 to |units|
      invariant why == [] <==> AllIn(units[..i])
    {
      AllInAppend(units[..i], units[i]);
      assert units[..i + 1] == units[..i] + [units[i]];
      if !units[i].covered { why := why + [NotCovered(units[i].what)]; }
    }
    assert units[..|units|] == units;
  }

  // --- what the verdict keeps ---

  lemma MoreJobsCover(run: Run, some: set<JobId>, all: set<JobId>, unit: Obj)
    requires some <= all && Covered(run, some, unit)
    ensures Covered(run, all, unit)
  {
    if ReadAll(run, some) {
      var j :| j in some && j in run.jobs && !run.jobs[j].declares;
      assert j in all;
    } else {
      MoreJobsDeclare(run, some, all, unit);
    }
  }

  lemma MoreJobsDeclare(run: Run, some: set<JobId>, all: set<JobId>, unit: Obj)
    requires some <= all && Declared(run, some, unit)
    ensures Declared(run, all, unit)
  {
    var j, d :| DeclaredBy(run, some, j, d) && Contains(run.objectOf(d).value, unit);
    assert DeclaredBy(run, all, j, d);
  }

  lemma MoreJobsOutput(run: Run, some: set<JobId>, all: set<JobId>, job: Option<JobId>)
    requires some <= all && OutputDeclared(run, some, job)
    ensures OutputDeclared(run, all, job)
  {
    var j, d :| DeclaredBy(run, some, j, d) && run.objectOf(d).value.dir && run.objectOf(d).value.path == OutOf(job.value);
    assert DeclaredBy(run, all, j, d);
  }

  lemma MoreJobsCoverObject(run: Run, some: set<JobId>, all: set<JobId>, ref: Ref)
    requires some <= all && AllCovered(run, some, ref)
    ensures AllCovered(run, all, ref)
  {
    var obj := run.objectOf(ref).value;
    if obj.member.Some? {
      var g := GenOf(run.gens, obj.member.value.gen);
      if Covered(run, some, obj) { MoreJobsCover(run, some, all, obj); }
      else if g.Some? && OutputDeclared(run, some, g.value.job) { MoreJobsOutput(run, some, all, g.value.job); }
      else { MoreJobsDeclare(run, some, all, run.objectOf(g.value.target.value).value); }
    } else {
      if Covered(run, some, obj) { MoreJobsCover(run, some, all, obj); }
      else {
        forall f | f in run.inputs && InDir(f, obj) ensures Covered(run, all, FileObj(f)) {
          MoreJobsCover(run, some, all, FileObj(f));
        }
      }
      forall g | g in run.gens && GenInside(run, g, obj) ensures GenCovered(run, all, g, obj) {
        var target := run.objectOf(g.target.value).value;
        if Covered(run, some, target) { MoreJobsCover(run, some, all, target); }
        else if Covered(run, some, obj) { MoreJobsCover(run, some, all, obj); }
        else { MoreJobsOutput(run, some, all, g.job); }
      }
    }
  }

  /** An entry with refs added, otherwise the same. */
  predicate EntryGrows(was: Entry, now: Entry) {
    now.num == was.num && now.absence == was.absence && now.completion == was.completion && was.refs <= now.refs
  }

  /** A record of the same objects with results, an entry's refs, or interpretations added, and no entry taken away. */
  ghost predicate Grows(was: Record, now: Record) {
    && now.objects == was.objects && was.results <= now.results
    && (forall n :: n in was.entries ==> n in now.entries && EntryGrows(was.entries[n], now.entries[n]))
    && (forall job :: job in was.interpretations ==>
          job in now.interpretations && forall n :: n in was.interpretations[job] ==> n in now.interpretations[job])
  }

  lemma NamesJobOn(run: Run, refs: seq<Ref>, more: seq<Ref>, job: JobId)
    requires refs <= more && NamesJob(run, refs, job)
    ensures NamesJob(run, more, job)
  {
    var r :| r in refs && run.jobOf(r) == Some(job);
    assert r in more;
  }

  /** A job once behind a record is behind it as it grows. */
  lemma BehindOn(run: Run, was: Record, now: Record, job: JobId)
    requires Grows(was, now) && Behind(run, was, job)
    ensures Behind(run, now, job)
  {
    if NamesJob(run, was.results, job) {
      NamesJobOn(run, was.results, now.results, job);
    } else {
      var e :| Cites(run, was, was.results, e) && LeadsTo(run, was, e, job);
      var r :| r in was.results && run.entryOf(r).Some? && run.entryOf(r).value in was.entries && was.entries[run.entryOf(r).value] == e;
      var f := now.entries[run.entryOf(r).value];
      assert r in now.results && Cites(run, now, now.results, f);
      if NamesJob(run, e.refs, job) { NamesJobOn(run, e.refs, f.refs, job); }
      assert LeadsTo(run, now, f, job);
    }
  }

  /** A job says nothing of how it ended, or that it ended well. */
  predicate EndedWell(j: Job) {
    j.status == None || j.status == Some("") || j.status == Some("ok")
  }

  /** A search was not left unfinished: it says it was complete, or nothing. */
  predicate SearchedWhole(e: Entry) {
    e.absence ==> e.completion == None || e.completion == Some(Complete)
  }

  lemma WellMeans(j: Job)
    ensures Succeeded(j) <==> EndedWell(j)
  {
  }

  lemma EndedMeans(run: Run, rec: Record, jobs: set<JobId>)
    ensures (forall j :: j in jobs ==> j in run.jobs && Succeeded(run.jobs[j]))
       <==> (forall j :: j in jobs ==> j in run.jobs && EndedWell(run.jobs[j]))
    ensures (forall e :: Cites(run, rec, rec.results, e) ==> WasWhole(e)) <==> (forall e :: Cites(run, rec, rec.results, e) ==> SearchedWhole(e))
  {
    forall j | j in jobs && j in run.jobs ensures Succeeded(run.jobs[j]) <==> EndedWell(run.jobs[j]) {
      WellMeans(run.jobs[j]);
    }
    forall e | Cites(run, rec, rec.results, e) ensures WasWhole(e) <==> SearchedWhole(e) {}
  }

  /**
   * However a complete record grows (a result, an entry it cites or one more
   * it cites, an interpretation), it stays complete if and only if every job
   * now behind it is recorded and succeeded and every search it cites was whole.
   */
  lemma GrownStaysComplete(run: Run, was: Record, now: Record, some: set<JobId>, all: set<JobId>)
    requires forall j :: j in some <==> Behind(run, was, j)
    requires forall j :: j in all <==> Behind(run, now, j)
    requires Grows(was, now) && IsComplete(run, was, some)
    ensures some <= all
    ensures IsComplete(run, now, all) <==>
              (forall j :: j in all - some ==> j in run.jobs && EndedWell(run.jobs[j]))
              && forall e :: Cites(run, now, now.results, e) ==> SearchedWhole(e)
  {
    forall j | j in some ensures j in all {
      BehindOn(run, was, now, j);
    }
    forall r | r in now.objects ensures AllCovered(run, all, r) {
      MoreJobsCoverObject(run, some, all, r);
    }
    EndedMeans(run, now, all - some);
    if forall j :: j in all - some ==> j in run.jobs && Succeeded(run.jobs[j]) {
      forall j | j in all ensures j in run.jobs && Succeeded(run.jobs[j]) {
        assert j in some || j in all - some;
      }
    }
  }

  /** A result that names one more job, recorded and successful, and cites nothing, never turns a complete record partial. */
  lemma OneMoreJobStaysComplete(run: Run, rec: Record, ref: Ref, some: set<JobId>, all: set<JobId>)
    requires forall j :: j in some <==> Behind(run, rec, j)
    requires forall j :: j in all <==> Behind(run, rec.(results := rec.results + [ref]), j)
    requires run.jobOf(ref).Some? && run.entryOf(ref).None?
    requires run.jobOf(ref).value in run.jobs && EndedWell(run.jobs[run.jobOf(ref).value])
    requires IsComplete(run, rec, some)
    ensures IsComplete(run, rec.(results := rec.results + [ref]), all)
  {
    var more := rec.(results := rec.results + [ref]);
    CitesAppend(run, rec, rec.results, ref);
    forall e ensures Cites(run, more, more.results, e) <==> Cites(run, rec, rec.results, e) {}
    forall j | j in all - some ensures run.jobOf(ref) == Some(j) {
      AddedIsNamed(run, rec, ref, j);
    }
    GrownStaysComplete(run, rec, more, some, all);
  }

  lemma AddedIsNamed(run: Run, rec: Record, ref: Ref, j: JobId)
    requires run.entryOf(ref).None?
    requires Behind(run, rec.(results := rec.results + [ref]), j) && !Behind(run, rec, j)
    ensures run.jobOf(ref) == Some(j)
  {
    var more := rec.(results := rec.results + [ref]);
    NamesJobAppend(run, rec.results, ref);
    CitesAppend(run, rec, rec.results, ref);
    if !NamesJob(run, more.results, j) {
      var e :| Cites(run, more, more.results, e) && LeadsTo(run, more, e, j);
      assert Cites(run, rec, rec.results, e) && LeadsTo(run, rec, e, j);
    }
  }

  /**
   * As the run locates objects: what stands at one place is one kind of object,
   * a directory has no digest, and the inventory lists files under inputs/.
   */
  ghost predicate WellLocated(run: Run) {
    && (forall a, b :: run.objectOf(a).Some? && run.objectOf(b).Some? && run.objectOf(a).value.path == run.objectOf(b).value.path ==>
          run.objectOf(a).value.dir == run.objectOf(b).value.dir)
    && (forall a :: run.objectOf(a).Some? && run.objectOf(a).value.dir ==> run.objectOf(a).value.sha.None?)
    && forall f :: f in run.inputs ==> Under(f.path, "inputs")
  }

  lemma UnderUnder(path: string, mid: string, top: string)
    requires Under(path, mid) && Under(mid, top)
    ensures Under(path, top)
  {
  }

  /** A directory covered whole covers each of its files: nothing a complete record names holds an inventory file no job was given. */
  lemma WholeCoversFiles(run: Run, jobs: set<JobId>, ref: Ref, f: InputFile)
    requires WellLocated(run) && AllCovered(run, jobs, ref)
    requires var obj := run.objectOf(ref).value; obj.member.None? && EvidenceDir(obj) && f in run.inputs && InDir(f, obj)
    ensures Covered(run, jobs, FileObj(f))
  {
    var obj := run.objectOf(ref).value;
    if Covered(run, jobs, obj) && !ReadAll(run, jobs) {
      var j, d :| DeclaredBy(run, jobs, j, d) && Contains(run.objectOf(d).value, obj);
      var outer := run.objectOf(d).value;
      if outer.path != obj.path && Under(obj.path, outer.path) && Under(f.path, obj.path) {
        UnderUnder(f.path, obj.path, outer.path);
      }
      assert Contains(outer, FileObj(f));
    }
  }
}
