/**
 * The DAX reader (widesim/parse/dax/DaxParser.java) after the XML document
 * is read: `job` elements become job records and give output files their
 * owners, `child` elements give the parent and child links, and each job
 * becomes a task with its input data, its links and the files it needs from
 * each source task.
 */
module DaxParsing {
  import opened Wrappers
  import opened Tasks
  import opened Workflows
  import opened ParsedFiles

  /** A `uses` element: its file, link and size attributes (the size already read as a long). */
  datatype Uses = Uses(file: string, link: string, size: int)

  /** A `job` element: its id attribute, its runtime attribute read as a double, and its `uses` elements. */
  datatype JobDecl = JobDecl(id: string, runtime: real, uses: seq<Uses>)

  /** A `child` element: its ref attribute and the ref attributes of its `parent` elements. */
  datatype ChildDecl = ChildDecl(ref: string, parents: seq<string>)

  /** The reader's per-job record (`Job`). */
  datatype Job = Job(id: int, runtime: int, inputFiles: seq<File>, outputFiles: seq<File>, fileMap: map<string, int>)

  // ---------------------------------------------------------------------
  // Ids: `Integer.parseInt(attribute.substring(2)) + 1`

  const IntMin: int := -0x8000_0000
  const IntMax: int := 0x7fff_ffff

  /** Java's `int` addition: the exact result wrapped into 32-bit two's complement. */
  function WrapInt(x: int): (r: int)
    ensures IntMin <= r <= IntMax
    ensures IntMin <= x <= IntMax ==> r == x
  {
    (x - IntMin) % 0x1_0000_0000 + IntMin
  }

  predicate IsDigit(c: char)
  {
    '0' <= c <= '9'
  }

  /** The value of a non-empty string of decimal digits, most significant first; `None` for any other string. */
  function DigitsValue(s: string): Option<nat>
  {
    if s == [] || !IsDigit(s[|s| - 1]) then None
    else
      var d := s[|s| - 1] as int - '0' as int;
      if |s| == 1 then Some(d)
      else match DigitsValue(s[..|s| - 1])
        case None => None
        case Some(v) => Some(v * 10 + d)
  }

  /**
   * `Integer.parseInt`: an optional sign and at least one decimal digit,
   * with a value in the `int` range; anything else throws (`None`).
   */
  function ParseInt(s: string): (r: Option<int>)
    ensures r.Some? ==> IntMin <= r.value <= IntMax
  {
    var signed := |s| > 0 && (s[0] == '-' || s[0] == '+');
    match DigitsValue(if signed then s[1..] else s)
      case None => None
      case Some(m) =>
        var v: int := if signed && s[0] == '-' then -(m as int) else m;
        if IntMin <= v <= IntMax then Some(v) else None
  }

  /** A job, child or parent reference: the integer after the first two characters, plus one. */
  function ParseRef(s: string): Option<int>
  {
    if |s| < 2 then None
    else match ParseInt(s[2..])
      case None => None
      case Some(v) => Some(WrapInt(v + 1))
  }

  /** The decimal digits of `n`, without leading zeros. */
  function DecimalString(n: nat): string
  {
    if n < 10 then ['0' + n as char] else DecimalString(n / 10) + ['0' + (n % 10) as char]
  }

  lemma {:induction false} DecimalStringValue(n: nat)
    ensures DecimalString(n) != [] && DecimalString(n)[0] != '-' && DecimalString(n)[0] != '+'
    ensures DigitsValue(DecimalString(n)) == Some(n)
  {
    if n >= 10 {
      DecimalStringValue(n / 10);
      var s := DecimalString(n);
      assert s[..|s| - 1] == DecimalString(n / 10);
      assert s[0] == DecimalString(n / 10)[0];
    }
  }

  /** One past the largest `int` wraps to the smallest. */
  lemma WrapPastIntMax()
    ensures WrapInt(IntMax + 1) == IntMin
  {
  }

  /** `Integer.parseInt` reads back every decimal string in the `int` range. */
  lemma ParseIntOfDecimal(n: nat)
    requires n <= IntMax
    ensures ParseInt(DecimalString(n)) == Some(n)
  {
    DecimalStringValue(n);
  }

  /**
   * Writing a number after a two-character prefix and reading it back gives
   * the number plus one; at the largest `int` the addition wraps round.
   */
  lemma ParseRefRoundTrip(prefix: string, n: nat)
    requires |prefix| == 2 && n <= IntMax
    ensures ParseRef(prefix + DecimalString(n)) == Some(WrapInt(n + 1))
    ensures n < IntMax ==> ParseRef(prefix + DecimalString(n)) == Some(n + 1)
    ensures n == IntMax ==> ParseRef(prefix + DecimalString(n)) == Some(IntMin)
  {
    var digits := DecimalString(n);
    var s := prefix + digits;
    assert s[2..] == digits;
    ParseIntOfDecimal(n);
    assert ParseInt(s[2..]) == Some(n);
    if n == IntMax {
      WrapPastIntMax();
    }
  }

  // ---------------------------------------------------------------------
  // Runtime: `(long)(1000 * runtime)`, raised to at least 100

  const LongMin: int := -0x8000_0000_0000_0000
  const LongMax: int := 0x7fff_ffff_ffff_ffff

  /** `(long) x`: rounds toward zero and saturates at the ends of the `long` range. */
  function LongOf(x: real): (r: int)
    ensures LongMin <= r <= LongMax
    ensures LongMin as real <= x < LongMax as real ==> (x >= 0.0 ==> r == x.Floor) && (x < 0.0 ==> r == -((-x).Floor))
  {
    if x >= LongMax as real then LongMax
    else if x <= LongMin as real then LongMin
    else if x >= 0.0 then x.Floor
    else -((-x).Floor)
  }

  function RuntimeOf(runtime: real): int
  {
    var r := LongOf(1000.0 * runtime);
    if r < 100 then 100 else r
  }

  /**
   * A runtime is never below 100 and never above the `long` range; a scaled
   * runtime of at least 100 keeps its truncated value, a smaller one
   * becomes 100.
   */
  lemma RuntimeBounds(runtime: real)
    ensures 100 <= RuntimeOf(runtime) <= LongMax
    ensures var s := 1000.0 * runtime; 100.0 <= s < LongMax as real ==> RuntimeOf(runtime) == s.Floor
    ensures 1000.0 * runtime < 100.0 ==> RuntimeOf(runtime) == 100
  {
  }

  /** A longer runtime attribute never gives a shorter runtime. */
  lemma RuntimeMonotone(x: real, y: real)
    requires x <= y
    ensures RuntimeOf(x) <= RuntimeOf(y)
  {
    var sx, sy := 1000.0 * x, 1000.0 * y;
    assert sx <= sy;
    if sx >= 0.0 && sy < LongMax as real {
      assert sx.Floor <= sy.Floor;
    } else if sx < 0.0 {
      assert LongOf(sx) <= 0;
    }
  }

  // ---------------------------------------------------------------------
  // `uses` elements

  /** The files of the `uses` elements with link "input", in document order. */
  function InputsOf(us: seq<Uses>): seq<File>
  {
    if us == [] then []
    else InputsOf(us[..|us| - 1]) + (if us[|us| - 1].link == "input" then [File(us[|us| - 1].file, us[|us| - 1].size)] else [])
  }

  /** The files of all other `uses` elements, in document order. */
  function OutputsOf(us: seq<Uses>): seq<File>
  {
    if us == [] then []
    else OutputsOf(us[..|us| - 1]) + (if us[|us| - 1].link != "input" then [File(us[|us| - 1].file, us[|us| - 1].size)] else [])
  }

  /** Each `uses` element is exactly one input or one output, by its link. */
  lemma {:induction false} UsesSplit(us: seq<Uses>, f: File)
    ensures |InputsOf(us)| + |OutputsOf(us)| == |us|
    ensures f in InputsOf(us) <==> exists j :: 0 <= j < |us| && us[j] == Uses(f.id, "input", f.size)
    ensures f in OutputsOf(us) <==> exists j :: 0 <= j < |us| && us[j].link != "input" && us[j].file == f.id && us[j].size == f.size
  {
    if us != [] {
      var init := us[..|us| - 1];
      UsesSplit(init, f);
      if exists j :: 0 <= j < |us| && us[j] == Uses(f.id, "input", f.size) {
        var j :| 0 <= j < |us| && us[j] == Uses(f.id, "input", f.size);
        if j < |init| { assert init[j] == us[j]; }
      }
      if exists j :: 0 <= j < |init| && init[j] == Uses(f.id, "input", f.size) {
        var j :| 0 <= j < |init| && init[j] == Uses(f.id, "input", f.size);
        assert us[j] == init[j];
      }
      if exists j :: 0 <= j < |us| && us[j].link != "input" && us[j].file == f.id && us[j].size == f.size {
        var j :| 0 <= j < |us| && us[j].link != "input" && us[j].file == f.id && us[j].size == f.size;
        if j < |init| { assert init[j] == us[j]; }
      }
      if exists j :: 0 <= j < |init| && init[j].link != "input" && init[j].file == f.id && init[j].size == f.size {
        var j :| 0 <= j < |init| && init[j].link != "input" && init[j].file == f.id && init[j].size == f.size;
        assert us[j] == init[j];
      }
    }
  }

  // ---------------------------------------------------------------------
  // Jobs and file owners

  /** The job record of one `job` element whose id parsed to `id`. */
  function JobOf(d: JobDecl, id: int): Job
  {
    Job(id, RuntimeOf(d.runtime), InputsOf(d.uses), OutputsOf(d.uses), FileMapOf(OutputsOf(d.uses)))
  }

  /** The results of `f` on each element in order; `None` as soon as one is `None`. */
  function AllSome<A, B>(f: A -> Option<B>, xs: seq<A>): Option<seq<B>>
  {
    if xs == [] then Some([])
    else match AllSome(f, xs[..|xs| - 1])
      case None => None
      case Some(init) => match f(xs[|xs| - 1])
        case None => None
        case Some(y) => Some(init + [y])
  }

  /** The results are there exactly when `f` succeeds on every element, one per element, in order. */
  lemma {:induction false} AllSomeIff<A, B>(f: A -> Option<B>, xs: seq<A>)
    ensures AllSome(f, xs).Some? <==> forall i :: 0 <= i < |xs| ==> f(xs[i]).Some?
    ensures AllSome(f, xs).Some? ==> |AllSome(f, xs).value| == |xs|
    ensures AllSome(f, xs).Some? ==> forall i :: 0 <= i < |xs| ==> f(xs[i]) == Some(AllSome(f, xs).value[i])
  {
    if xs != [] {
      var init, last := xs[..|xs| - 1], xs[|xs| - 1];
      AllSomeIff(f, init);
      if AllSome(f, init).None? {
        var i :| 0 <= i < |init| && f(init[i]).None?;
        assert xs[i] == init[i];
      } else if f(last).Some? {
        var r0 := AllSome(f, init).value;
        forall i | 0 <= i < |xs|
          ensures f(xs[i]).Some? && f(xs[i]) == Some((r0 + [f(last).value])[i])
        {
          if i < |init| { assert xs[i] == init[i]; }
        }
      }
    }
  }

  /** The job record of one `job` element; `None` when its id does not parse. */
  function JobFor(d: JobDecl): Option<Job>
  {
    match ParseRef(d.id)
      case None => None
      case Some(id) => Some(JobOf(d, id))
  }

  /** The job records of the `job` elements in document order; `None` when an id does not parse. */
  function JobsOf(ds: seq<JobDecl>): Option<seq<Job>>
  {
    AllSome(JobFor, ds)
  }

  /** The records are there exactly when every id parses, one per element, each with its element's parsed id. */
  lemma JobsOfIff(ds: seq<JobDecl>)
    ensures JobsOf(ds).Some? <==> forall i :: 0 <= i < |ds| ==> ParseRef(ds[i].id).Some?
    ensures JobsOf(ds).Some? ==> |JobsOf(ds).value| == |ds|
    ensures JobsOf(ds).Some? ==> forall i :: 0 <= i < |ds| ==> JobsOf(ds).value[i] == JobOf(ds[i], ParseRef(ds[i].id).value)
  {
    AllSomeIff(JobFor, ds);
  }

  /** (output file, job id) for each output of one job, in document order. */
  function ClaimPairs(outputs: seq<File>, id: int): (r: seq<(string, int)>)
    ensures |r| == |outputs| && forall j :: 0 <= j < |outputs| ==> r[j] == (outputs[j].id, id)
  {
    if outputs == [] then [] else ClaimPairs(outputs[..|outputs| - 1], id) + [(outputs[|outputs| - 1].id, id)]
  }

  /** The (file, owner) pairs of all jobs, in document order: `fileToOwner` groups them. */
  function OwnerPairs(jobs: seq<Job>): seq<(string, int)>
  {
    if jobs == [] then [] else OwnerPairs(jobs[..|jobs| - 1]) + ClaimPairs(jobs[|jobs| - 1].outputFiles, jobs[|jobs| - 1].id)
  }

  /** A file's owners are the jobs listing it as an output, in job order, each once per listing. */
  lemma OwnersAreDeclarers(jobs: seq<Job>, f: string, owner: int)
    ensures var g := Grouped(OwnerPairs(jobs));
      (f in g && owner in g[f]) <==> exists i, j :: 0 <= i < |jobs| && 0 <= j < |jobs[i].outputFiles| && jobs[i].outputFiles[j].id == f && jobs[i].id == owner
  {
    GroupedIff(OwnerPairs(jobs), f);
    ValuesOfIff(OwnerPairs(jobs), f, owner);
    OwnerPairsIff(jobs, (f, owner));
  }

  lemma {:induction false} OwnerPairsIff(jobs: seq<Job>, p: (string, int))
    ensures p in OwnerPairs(jobs) <==> exists i, j :: 0 <= i < |jobs| && 0 <= j < |jobs[i].outputFiles| && jobs[i].outputFiles[j].id == p.0 && jobs[i].id == p.1
  {
    if jobs != [] {
      var init, last := jobs[..|jobs| - 1], jobs[|jobs| - 1];
      OwnerPairsIff(init, p);
      var cs := ClaimPairs(last.outputFiles, last.id);
      if p in cs {
        var j :| 0 <= j < |cs| && cs[j] == p;
        assert jobs[|jobs| - 1].outputFiles[j].id == p.0;
      }
      if exists i, j :: 0 <= i < |jobs| && 0 <= j < |jobs[i].outputFiles| && jobs[i].outputFiles[j].id == p.0 && jobs[i].id == p.1 {
        var i, j :| 0 <= i < |jobs| && 0 <= j < |jobs[i].outputFiles| && jobs[i].outputFiles[j].id == p.0 && jobs[i].id == p.1;
        if i < |init| {
          assert init[i] == jobs[i];
        } else {
          assert cs[j] == p;
        }
      }
      if exists i, j :: 0 <= i < |init| && 0 <= j < |init[i].outputFiles| && init[i].outputFiles[j].id == p.0 && init[i].id == p.1 {
        var i, j :| 0 <= i < |init| && 0 <= j < |init[i].outputFiles| && init[i].outputFiles[j].id == p.0 && init[i].id == p.1;
        assert jobs[i] == init[i];
      }
    }
  }

  lemma ClaimStep(prior: seq<(string, int)>, outputs: seq<File>, f: File, id: int)
    ensures prior + ClaimPairs(outputs + [f], id) == (prior + ClaimPairs(outputs, id)) + [(f.id, id)]
  {
    assert (outputs + [f])[..|outputs|] == outputs;
  }

  lemma UsesStep(us: seq<Uses>, j: int)
    requires 0 <= j < |us|
    ensures InputsOf(us[..j + 1]) == InputsOf(us[..j]) + (if us[j].link == "input" then [File(us[j].file, us[j].size)] else [])
    ensures OutputsOf(us[..j + 1]) == OutputsOf(us[..j]) + (if us[j].link != "input" then [File(us[j].file, us[j].size)] else [])
  {
    assert us[..j + 1][..j] == us[..j];
  }

  /**
   * The loop over one job's `uses` elements: inputs and outputs split by
   * link, each output sized in the file map and appended to its owner list.
   */
  method ReadUses(us: seq<Uses>, id: int, runtime: int, owners0: map<string, seq<int>>, ghost prior: seq<(string, int)>)
    returns (job: Job, owners: map<string, seq<int>>)
    requires owners0 == Grouped(prior)
    ensures job == Job(id, runtime, InputsOf(us), OutputsOf(us), FileMapOf(OutputsOf(us)))
    ensures owners == Grouped(prior + ClaimPairs(OutputsOf(us), id))
  {
    var inputFiles: seq<File>, outputFiles: seq<File>, fileMap: map<string, int> := [], [], map[];
    owners := owners0;
    ghost var pairs := prior;
    assert prior + ClaimPairs([], id) == prior;
    for j := 0 to |us|
      invariant inputFiles == InputsOf(us[..j]) && outputFiles == OutputsOf(us[..j])
      invariant fileMap == FileMapOf(outputFiles)
      invariant pairs == prior + ClaimPairs(outputFiles, id) && owners == Grouped(pairs)
    {
      var u := us[j];
      UsesStep(us, j);
      var f := File(u.file, u.size);
      if u.link == "input" {
        inputFiles := inputFiles + [f];
      } else {
        ClaimStep(prior, outputFiles, f, id);
        GroupedAppend(pairs, (f.id, id));
        assert (outputFiles + [f])[..|outputFiles|] == outputFiles;
        outputFiles := outputFiles + [f];
        fileMap := fileMap[u.file := u.size];
        owners := owners[u.file := (if u.file in owners then owners[u.file] else []) + [id]];
        pairs := pairs + [(f.id, id)];
      }
    }
    assert us[..|us|] == us;
    job := Job(id, runtime, inputFiles, outputFiles, fileMap);
  }

  lemma JobsStep(ds: seq<JobDecl>, i: int, done: seq<Job>, id: int)
    requires 0 <= i < |ds| && JobsOf(ds[..i]) == Some(done) && ParseRef(ds[i].id) == Some(id)
    ensures JobsOf(ds[..i + 1]) == Some(done + [JobOf(ds[i], id)])
  {
    assert ds[..i + 1][..i] == ds[..i];
  }

  lemma OwnerPairsStep(done: seq<Job>, job: Job)
    ensures OwnerPairs(done + [job]) == OwnerPairs(done) + ClaimPairs(job.outputFiles, job.id)
  {
    assert (done + [job])[..|done|] == done;
  }

  /** The loop over the `job` elements: the job records and `fileToOwner`; a bad id throws. */
  method ReadJobs(ds: seq<JobDecl>) returns (jobs: Option<seq<Job>>, fileToOwner: map<string, seq<int>>)
    ensures jobs == JobsOf(ds)
    ensures jobs.Some? ==> fileToOwner == Grouped(OwnerPairs(jobs.value))
  {
    var done: seq<Job> := [];
    fileToOwner := map[];
    for i := 0 to |ds|
      invariant JobsOf(ds[..i]) == Some(done)
      invariant fileToOwner == Grouped(OwnerPairs(done))
    {
      var ref := ParseRef(ds[i].id);
      if ref.None? {
        JobsOfIff(ds);
        return None, fileToOwner;
      }
      var job;
      job, fileToOwner := ReadUses(ds[i].uses, ref.value, RuntimeOf(ds[i].runtime), fileToOwner, OwnerPairs(done));
      JobsStep(ds, i, done, ref.value);
      OwnerPairsStep(done, job);
      done := done + [job];
    }
    assert ds[..|ds|] == ds;
    jobs := Some(done);
  }

  // ---------------------------------------------------------------------
  // Parent and child links

  /** The parsed ids of a list of refs; `None` when any of them does not parse. */
  function ParsedRefs(refs: seq<string>): Option<seq<int>>
  {
    if refs == [] then Some([])
    else
      var last := ParseRef(refs[|refs| - 1]);
      match ParsedRefs(refs[..|refs| - 1])
        case None => None
        case Some(ids) => if last.None? then None else Some(ids + [last.value])
  }

  /** The ids are there exactly when every ref parses, one per ref, in order. */
  lemma {:induction false} ParsedRefsIff(refs: seq<string>)
    ensures ParsedRefs(refs).Some? <==> forall j :: 0 <= j < |refs| ==> ParseRef(refs[j]).Some?
    ensures ParsedRefs(refs).Some? ==> |ParsedRefs(refs).value| == |refs|
    ensures ParsedRefs(refs).Some? ==> forall j :: 0 <= j < |refs| ==> ParseRef(refs[j]) == Some(ParsedRefs(refs).value[j])
  {
    if refs != [] {
      var init, last := refs[..|refs| - 1], refs[|refs| - 1];
      ParsedRefsIff(init);
      if ParsedRefs(init).None? {
        var j :| 0 <= j < |init| && ParseRef(init[j]).None?;
        assert refs[j] == init[j];
      } else if ParseRef(last).Some? {
        var r := ParsedRefs(refs).value;
        assert r == ParsedRefs(init).value + [ParseRef(last).value];
        forall j | 0 <= j < |refs|
          ensures ParseRef(refs[j]) == Some(r[j])
        {
          if j < |init| { assert init[j] == refs[j]; }
        }
      }
    }
  }

  /** A `child` element with its refs parsed: the child's id and its parents' ids in document order. */
  datatype ChildLinks = ChildLinks(child: int, parents: seq<int>)

  /** Both the ref and every parent ref of a `child` element parse. */
  predicate ChildParses(d: ChildDecl)
  {
    ParseRef(d.ref).Some? && ParsedRefs(d.parents).Some?
  }

  function ChildLinksOf(d: ChildDecl): ChildLinks
    requires ChildParses(d)
  {
    ChildLinks(ParseRef(d.ref).value, ParsedRefs(d.parents).value)
  }

  /** The parsed `child` elements; `None` when any ref in them does not parse. */
  function ParsedChildren(cs: seq<ChildDecl>): Option<seq<ChildLinks>>
  {
    if cs == [] then Some([])
    else
      var last := cs[|cs| - 1];
      match ParsedChildren(cs[..|cs| - 1])
        case None => None
        case Some(init) => if ChildParses(last) then Some(init + [ChildLinksOf(last)]) else None
  }

  /** The parsed elements are there exactly when every ref parses, one per element, in order. */
  lemma {:induction false} ParsedChildrenIff(cs: seq<ChildDecl>)
    ensures ParsedChildren(cs).Some? <==> forall i :: 0 <= i < |cs| ==> ChildParses(cs[i])
    ensures ParsedChildren(cs).Some? ==> |ParsedChildren(cs).value| == |cs|
    ensures ParsedChildren(cs).Some? ==> forall i :: 0 <= i < |cs| ==> ParsedChildren(cs).value[i] == ChildLinksOf(cs[i])
  {
    if cs != [] {
      var init, last := cs[..|cs| - 1], cs[|cs| - 1];
      ParsedChildrenIff(init);
      if ParsedChildren(init).None? {
        var i :| 0 <= i < |init| && !ChildParses(init[i]);
        assert cs[i] == init[i];
      } else if ChildParses(last) {
        var r := ParsedChildren(cs).value;
        assert r == ParsedChildren(init).value + [ChildLinksOf(last)];
        forall i | 0 <= i < |cs|
          ensures ChildParses(cs[i]) && r[i] == ChildLinksOf(cs[i])
        {
          if i < |init| { assert init[i] == cs[i]; }
        }
      }
    }
  }

  /** (child, parent) for each parent of one child. */
  function PairsOf(child: int, parents: seq<int>): (r: seq<(int, int)>)
    ensures |r| == |parents| && forall j :: 0 <= j < |parents| ==> r[j] == (child, parents[j])
  {
    if parents == [] then [] else PairsOf(child, parents[..|parents| - 1]) + [(child, parents[|parents| - 1])]
  }

  /** All (child, parent) links in document order: `childToParents` groups them, `parentToChildren` the swapped ones. */
  function Links(pcs: seq<ChildLinks>): seq<(int, int)>
  {
    if pcs == [] then [] else Links(pcs[..|pcs| - 1]) + PairsOf(pcs[|pcs| - 1].child, pcs[|pcs| - 1].parents)
  }

  lemma PairsOfIff(child: int, parents: seq<int>, c: int, p: int)
    ensures (c, p) in PairsOf(child, parents) <==> c == child && p in parents
  {
    var ls := PairsOf(child, parents);
    if (c, p) in ls {
      var j :| 0 <= j < |ls| && ls[j] == (c, p);
      assert parents[j] == p;
    }
    if c == child && p in parents {
      var j :| 0 <= j < |parents| && parents[j] == p;
      assert ls[j] == (c, p);
    }
  }

  /** A link (c, p) is there exactly when some `child` element for c lists p among its parents. */
  lemma {:induction false} LinksIff(pcs: seq<ChildLinks>, c: int, p: int)
    ensures (c, p) in Links(pcs) <==> exists i :: 0 <= i < |pcs| && pcs[i].child == c && p in pcs[i].parents
  {
    if pcs != [] {
      var init, last := pcs[..|pcs| - 1], pcs[|pcs| - 1];
      LinksIff(init, c, p);
      PairsOfIff(last.child, last.parents, c, p);
      if exists i :: 0 <= i < |pcs| && pcs[i].child == c && p in pcs[i].parents {
        var i :| 0 <= i < |pcs| && pcs[i].child == c && p in pcs[i].parents;
        if i < |init| { assert init[i] == pcs[i]; }
      }
      if exists i :: 0 <= i < |init| && init[i].child == c && p in init[i].parents {
        var i :| 0 <= i < |init| && init[i].child == c && p in init[i].parents;
        assert pcs[i] == init[i];
      }
    }
  }

  lemma LinkStep(links: seq<(int, int)>, c: int, p: int)
    ensures Grouped(links + [(c, p)]) == var m := Grouped(links); m[c := (if c in m then m[c] else []) + [p]]
    ensures Grouped(Swapped(links + [(c, p)])) == var m := Grouped(Swapped(links)); m[p := (if p in m then m[p] else []) + [c]]
  {
    GroupedAppend(links, (c, p));
    assert (links + [(c, p)])[..|links|] == links;
    GroupedAppend(Swapped(links), (p, c));
  }

  lemma RefStep(refs: seq<string>, j: int, ids: seq<int>, id: int)
    requires 0 <= j < |refs| && ParsedRefs(refs[..j]) == Some(ids) && ParseRef(refs[j]) == Some(id)
    ensures ParsedRefs(refs[..j + 1]) == Some(ids + [id])
  {
    assert refs[..j + 1][..j] == refs[..j];
  }

  lemma PairStep(prior: seq<(int, int)>, child: int, ids: seq<int>, id: int)
    ensures prior + PairsOf(child, ids + [id]) == (prior + PairsOf(child, ids)) + [(child, id)]
  {
    assert (ids + [id])[..|ids|] == ids;
  }

  /** The loop over one `child` element's `parent` elements. */
  method ReadParents(child: int, refs: seq<string>, c2p0: map<int, seq<int>>, p2c0: map<int, seq<int>>, ghost prior: seq<(int, int)>)
    returns (parents: Option<seq<int>>, childToParents: map<int, seq<int>>, parentToChildren: map<int, seq<int>>)
    requires c2p0 == Grouped(prior) && p2c0 == Grouped(Swapped(prior))
    ensures parents == ParsedRefs(refs)
    ensures parents.Some? ==> childToParents == Grouped(prior + PairsOf(child, parents.value))
    ensures parents.Some? ==> parentToChildren == Grouped(Swapped(prior + PairsOf(child, parents.value)))
  {
    childToParents, parentToChildren := c2p0, p2c0;
    var ids: seq<int> := [];
    ghost var links := prior;
    assert prior + PairsOf(child, []) == prior;
    for j := 0 to |refs|
      invariant ParsedRefs(refs[..j]) == Some(ids)
      invariant links == prior + PairsOf(child, ids)
      invariant childToParents == Grouped(links) && parentToChildren == Grouped(Swapped(links))
    {
      var ref := ParseRef(refs[j]);
      if ref.None? {
        ParsedRefsIff(refs);
        return None, childToParents, parentToChildren;
      }
      var parent := ref.value;
      RefStep(refs, j, ids, parent);
      PairStep(prior, child, ids, parent);
      LinkStep(links, child, parent);
      childToParents := childToParents[child := (if child in childToParents then childToParents[child] else []) + [parent]];
      parentToChildren := parentToChildren[parent := (if parent in parentToChildren then parentToChildren[parent] else []) + [child]];
      ids := ids + [parent];
      links := links + [(child, parent)];
    }
    assert refs[..|refs|] == refs;
    parents := Some(ids);
  }

  lemma ChildStep(cs: seq<ChildDecl>, i: int, pcs: seq<ChildLinks>, child: int, parents: seq<int>)
    requires 0 <= i < |cs| && ParsedChildren(cs[..i]) == Some(pcs)
    requires ParseRef(cs[i].ref) == Some(child) && ParsedRefs(cs[i].parents) == Some(parents)
    ensures ParsedChildren(cs[..i + 1]) == Some(pcs + [ChildLinks(child, parents)])
    ensures Links(pcs + [ChildLinks(child, parents)]) == Links(pcs) + PairsOf(child, parents)
  {
    assert cs[..i + 1][..i] == cs[..i];
    assert (pcs + [ChildLinks(child, parents)])[..|pcs|] == pcs;
  }

  /** The loop over the `child` elements; a bad ref throws. */
  method ReadChildren(cs: seq<ChildDecl>) returns (pcs: Option<seq<ChildLinks>>, childToParents: map<int, seq<int>>, parentToChildren: map<int, seq<int>>)
    ensures pcs == ParsedChildren(cs)
    ensures pcs.Some? ==> childToParents == Grouped(Links(pcs.value)) && parentToChildren == Grouped(Swapped(Links(pcs.value)))
  {
    childToParents, parentToChildren := map[], map[];
    var done: seq<ChildLinks> := [];
    for i := 0 to |cs|
      invariant ParsedChildren(cs[..i]) == Some(done)
      invariant childToParents == Grouped(Links(done)) && parentToChildren == Grouped(Swapped(Links(done)))
    {
      var ref := ParseRef(cs[i].ref);
      if ref.None? {
        ParsedChildrenIff(cs);
        return None, childToParents, parentToChildren;
      }
      var parents;
      parents, childToParents, parentToChildren := ReadParents(ref.value, cs[i].parents, childToParents, parentToChildren, Links(done));
      if parents.None? {
        ParsedChildrenIff(cs);
        return None, childToParents, parentToChildren;
      }
      ChildStep(cs, i, done, ref.value, parents.value);
      done := done + [ChildLinks(ref.value, parents.value)];
    }
    assert cs[..|cs|] == cs;
    pcs := Some(done);
  }

  /** `new HashSet<>(childToParents.getOrDefault(id, []))`. */
  function ParentsOf(childToParents: map<int, seq<int>>, id: int): set<int>
  {
    if id in childToParents then set p | p in childToParents[id] else {}
  }

  /** `parentToChildren.getOrDefault(id, [])`. */
  function ChildrenOf(parentToChildren: map<int, seq<int>>, id: int): seq<int>
  {
    if id in parentToChildren then parentToChildren[id] else []
  }

  /**
   * The links agree both ways, and come from the document: p is a parent
   * of c exactly when c is a child of p, exactly when a `child` element for
   * c lists a `parent` element for p.
   */
  lemma ParentsAndChildrenAgree(pcs: seq<ChildLinks>, c: int, p: int)
    ensures p in ParentsOf(Grouped(Links(pcs)), c) <==> c in ChildrenOf(Grouped(Swapped(Links(pcs))), p)
    ensures p in ParentsOf(Grouped(Links(pcs)), c) <==> exists i :: 0 <= i < |pcs| && pcs[i].child == c && p in pcs[i].parents
  {
    var links := Links(pcs);
    GroupedBothWays(links, c, p);
    GroupedIff(links, c);
    ValuesOfIff(links, c, p);
    LinksIff(pcs, c, p);
    assert (c, p) in links <==> exists i :: 0 <= i < |links| && links[i] == (c, p);
  }

  // ---------------------------------------------------------------------
  // Input data and tasks

  /** `fileToOwner.getOrDefault(id, List.of(self))`. */
  function OwnersOrSelf(owners: map<string, seq<int>>, id: string, self: int): seq<int>
  {
    if id in owners then owners[id] else [self]
  }

  /**
   * The sources of an input file are the jobs listing it as an output; a
   * file no job lists comes from the job itself.
   */
  lemma InputSources(jobs: seq<Job>, f: string, self: int, src: int)
    ensures src in OwnersOrSelf(Grouped(OwnerPairs(jobs)), f, self) <==>
      (exists i, j :: 0 <= i < |jobs| && 0 <= j < |jobs[i].outputFiles| && jobs[i].outputFiles[j].id == f && jobs[i].id == src)
      || (src == self && f !in Grouped(OwnerPairs(jobs)))
    ensures f !in Grouped(OwnerPairs(jobs)) <==>
      forall i, j :: 0 <= i < |jobs| && 0 <= j < |jobs[i].outputFiles| ==> jobs[i].outputFiles[j].id != f
  {
    var pairs := OwnerPairs(jobs);
    OwnersAreDeclarers(jobs, f, src);
    GroupedIff(pairs, f);
    OwnerPairsIff(jobs, (f, src));
    if f in Grouped(pairs) {
      var k :| 0 <= k < |pairs| && pairs[k].0 == f;
      OwnerPairsIff(jobs, pairs[k]);
    } else if exists i, j :: 0 <= i < |jobs| && 0 <= j < |jobs[i].outputFiles| && jobs[i].outputFiles[j].id == f {
      var i, j :| 0 <= i < |jobs| && 0 <= j < |jobs[i].outputFiles| && jobs[i].outputFiles[j].id == f;
      OwnerPairsIff(jobs, (f, jobs[i].id));
    }
  }

  /** The data entries of one input file: one per owner, in owner order. */
  function DataFor(f: File, owners: map<string, seq<int>>, self: int): (r: seq<Data>)
    ensures var os := OwnersOrSelf(owners, f.id, self);
      |r| == |os| && forall k :: 0 <= k < |os| ==> r[k] == Data(f.id, os[k], self, f.size as real)
  {
    var os := OwnersOrSelf(owners, f.id, self);
    seq(|os|, k requires 0 <= k < |os| => Data(f.id, os[k], self, f.size as real))
  }

  /** The input-file `flatMap`: the entries of each input in turn. */
  function DaxDataOf(inputs: seq<File>, owners: map<string, seq<int>>, self: int): seq<Data>
  {
    if inputs == [] then [] else DaxDataOf(inputs[..|inputs| - 1], owners, self) + DataFor(inputs[|inputs| - 1], owners, self)
  }

  /**
   * One data entry per (input file, owner) pair: an entry is there exactly
   * when its file is an input, its source one of the file's owners (or the
   * job itself when the file has none) and its destination the job.
   */
  lemma {:induction false} DaxDataIff(inputs: seq<File>, owners: map<string, seq<int>>, self: int, d: Data)
    ensures d in DaxDataOf(inputs, owners, self) <==>
      exists j, k :: 0 <= j < |inputs| && 0 <= k < |OwnersOrSelf(owners, inputs[j].id, self)|
        && d == Data(inputs[j].id, OwnersOrSelf(owners, inputs[j].id, self)[k], self, inputs[j].size as real)
  {
    if inputs != [] {
      var init, last := inputs[..|inputs| - 1], inputs[|inputs| - 1];
      DaxDataIff(init, owners, self, d);
      var ds := DataFor(last, owners, self);
      if d in ds {
        var k :| 0 <= k < |ds| && ds[k] == d;
        assert d == Data(inputs[|inputs| - 1].id, OwnersOrSelf(owners, inputs[|inputs| - 1].id, self)[k], self, inputs[|inputs| - 1].size as real);
      }
      if exists j, k :: 0 <= j < |inputs| && 0 <= k < |OwnersOrSelf(owners, inputs[j].id, self)|
          && d == Data(inputs[j].id, OwnersOrSelf(owners, inputs[j].id, self)[k], self, inputs[j].size as real) {
        var j, k :| 0 <= j < |inputs| && 0 <= k < |OwnersOrSelf(owners, inputs[j].id, self)|
          && d == Data(inputs[j].id, OwnersOrSelf(owners, inputs[j].id, self)[k], self, inputs[j].size as real);
        if j < |init| {
          assert init[j] == inputs[j];
        } else {
          assert ds[k] == d;
        }
      }
      if exists j, k :: 0 <= j < |init| && 0 <= k < |OwnersOrSelf(owners, init[j].id, self)|
          && d == Data(init[j].id, OwnersOrSelf(owners, init[j].id, self)[k], self, init[j].size as real) {
        var j, k :| 0 <= j < |init| && 0 <= k < |OwnersOrSelf(owners, init[j].id, self)|
          && d == Data(init[j].id, OwnersOrSelf(owners, init[j].id, self)[k], self, init[j].size as real);
        assert inputs[j] == init[j];
      }
    }
  }

  /** (source task, file name) of each data entry, in order. */
  function NeededSources(data: seq<Data>): (r: seq<(int, string)>)
    ensures |r| == |data| && forall i :: 0 <= i < |data| ==> r[i] == (data[i].srcTaskId, data[i].fileName)
  {
    if data == [] then [] else NeededSources(data[..|data| - 1]) + [(data[|data| - 1].srcTaskId, data[|data| - 1].fileName)]
  }

  /** `neededFromParent` lists a file under a source exactly when a data entry brings that file from that source. */
  lemma NeededFromSources(data: seq<Data>, src: int, name: string)
    ensures var needed := Grouped(NeededSources(data));
      (src in needed && name in needed[src]) <==> exists i :: 0 <= i < |data| && data[i].srcTaskId == src && data[i].fileName == name
  {
    var pairs := NeededSources(data);
    GroupedIff(pairs, src);
    ValuesOfIff(pairs, src, name);
    if exists i :: 0 <= i < |pairs| && pairs[i] == (src, name) {
      var i :| 0 <= i < |pairs| && pairs[i] == (src, name);
      assert data[i].srcTaskId == src && data[i].fileName == name;
    }
    if exists i :: 0 <= i < |data| && data[i].srcTaskId == src && data[i].fileName == name {
      var i :| 0 <= i < |data| && data[i].srcTaskId == src && data[i].fileName == name;
      assert pairs[i] == (src, name);
    }
  }

  /** `Double.MAX_VALUE`, the deadline every DAX task gets: (2^53 - 1) * 2^971. */
  const DoubleMax: real := 179769313486231570814527423731704356798070567525844996598917476803157260780028538760589558632766878171540458953514382464234321326889464182768467546703537516986049910576551282076245490090389328944075868508455133942304583236903222948165808559332123348274797826204144723168738177180919299881250404026184124858368.0

  /** The fields of a task the reader gives through the constructor. */
  ghost predicate DaxConstructed(t: Task, job: Job, owners: map<string, seq<int>>, workflowName: string)
    reads t`selectivityModel, t`executionModel, t`ram, t`bw, t`cycle
  {
    && t.taskId == job.id && t.length == job.runtime && t.pes == 1
    && t.fileSize == TotalSize(job.inputFiles, 1) && t.outputSize == TotalSize(job.outputFiles, 1)
    && t.inputFiles == DaxDataOf(job.inputFiles, owners, job.id)
    && t.deadLine == DoubleMax && t.entryTime == 0.0 && t.workflowId == workflowName
    && t.selectivityModel == FractionalSelectivity(1.0) && t.executionModel == PeriodicExecutionModel(1.0)
    && t.ram.None? && t.bw.None? && t.assignedVmId.None? && t.cycle == 0
  }

  /** The fields of a task the reader gives through the setters. */
  ghost predicate DaxLinked(t: Task, job: Job, childToParents: map<int, seq<int>>, parentToChildren: map<int, seq<int>>)
    reads t`fileMap, t`neededFromParent, t`parents, t`children
  {
    && t.parents == ParentsOf(childToParents, job.id) && t.children == ChildrenOf(parentToChildren, job.id)
    && t.fileMap == job.fileMap && t.neededFromParent == Grouped(NeededSources(t.inputFiles))
  }

  /** A task as the reader builds it from its job record and the finished owner and link maps. */
  ghost predicate DaxBuiltFrom(t: Task, job: Job, owners: map<string, seq<int>>,
                               childToParents: map<int, seq<int>>, parentToChildren: map<int, seq<int>>, workflowName: string)
    reads t`selectivityModel, t`executionModel, t`ram, t`bw, t`fileMap, t`neededFromParent
    reads t`parents, t`children, t`cycle
  {
    DaxConstructed(t, job, owners, workflowName) && DaxLinked(t, job, childToParents, parentToChildren)
  }

  /** The constructor call of one iteration of the task loop. */
  method NewDaxTask(job: Job, owners: map<string, seq<int>>, workflowName: string) returns (task: Task)
    ensures fresh(task) && DaxConstructed(task, job, owners, workflowName)
  {
    task := new Task.WithModels(job.id, job.runtime, 1, TotalSize(job.inputFiles, 1), TotalSize(job.outputFiles, 1),
                                DaxDataOf(job.inputFiles, owners, job.id), DoubleMax, 0.0, workflowName,
                                FractionalSelectivity(1.0), PeriodicExecutionModel(1.0), None, None, None);
  }

  /** One iteration of the task loop. */
  method BuildDaxTask(job: Job, owners: map<string, seq<int>>, childToParents: map<int, seq<int>>,
                      parentToChildren: map<int, seq<int>>, workflowName: string) returns (task: Task)
    ensures fresh(task) && DaxBuiltFrom(task, job, owners, childToParents, parentToChildren, workflowName)
  {
    task := NewDaxTask(job, owners, workflowName);
    var neededFiles := Group(NeededSources(task.inputFiles));
    task.SetParents(ParentsOf(childToParents, job.id));
    task.SetChildren(ChildrenOf(parentToChildren, job.id));
    task.SetFileMap(job.fileMap);
    task.SetNeededFromParent(neededFiles);
  }

  /** The loop building one new task per job record, in job order. */
  method BuildDaxTasks(jobs: seq<Job>, owners: map<string, seq<int>>, childToParents: map<int, seq<int>>,
                       parentToChildren: map<int, seq<int>>, workflowName: string) returns (tasks: seq<Task>)
    ensures |tasks| == |jobs| && forall i :: 0 <= i < |jobs| ==> tasks[i].taskId == jobs[i].id
    ensures forall i :: 0 <= i < |jobs| ==> fresh(tasks[i]) && DaxBuiltFrom(tasks[i], jobs[i], owners, childToParents, parentToChildren, workflowName)
  {
    tasks := [];
    for i := 0 to |jobs|
      invariant |tasks| == i
      invariant forall k :: 0 <= k < i ==> fresh(tasks[k]) && DaxBuiltFrom(tasks[k], jobs[k], owners, childToParents, parentToChildren, workflowName)
    {
      var task := BuildDaxTask(jobs[i], owners, childToParents, parentToChildren, workflowName);
      tasks := tasks + [task];
    }
  }

  predicate DistinctJobIds(jobs: seq<Job>)
  {
    forall i, j :: 0 <= i < j < |jobs| ==> jobs[i].id != jobs[j].id
  }

  lemma DistinctTaskIds(tasks: seq<Task>, jobs: seq<Job>)
    requires |tasks| == |jobs| && forall i :: 0 <= i < |jobs| ==> tasks[i].taskId == jobs[i].id
    ensures DistinctIds(tasks) <==> DistinctJobIds(jobs)
  {
  }

  /** The workflow the reader builds from the job records and the parsed `child` elements. */
  ghost predicate DaxParsedFrom(wf: Workflow, jobs: seq<Job>, pcs: seq<ChildLinks>, workflowName: string)
    reads set i | 0 <= i < |wf.tasks| :: wf.tasks[i]
  {
    && wf.workflowId == workflowName && |wf.tasks| == |jobs|
    && forall i :: 0 <= i < |jobs| ==>
      DaxBuiltFrom(wf.tasks[i], jobs[i], Grouped(OwnerPairs(jobs)), Grouped(Links(pcs)), Grouped(Swapped(Links(pcs))), workflowName)
  }

  /**
   * `buildWorkflow`: the jobs, then the links, then one task per job; a bad
   * reference or a repeated job id makes the reader fail.
   */
  method BuildWorkflow(ds: seq<JobDecl>, cs: seq<ChildDecl>, workflowName: string) returns (r: Option<Workflow>)
    ensures r.Some? <==> JobsOf(ds).Some? && ParsedChildren(cs).Some? && DistinctJobIds(JobsOf(ds).value)
    ensures r.Some? ==> DaxParsedFrom(r.value, JobsOf(ds).value, ParsedChildren(cs).value, workflowName)
    ensures r.Some? ==> forall i :: 0 <= i < |r.value.tasks| ==> fresh(r.value.tasks[i])
  {
    var jobs, fileToOwner := ReadJobs(ds);
    if jobs.None? {
      return None;
    }
    var pcs, childToParents, parentToChildren := ReadChildren(cs);
    if pcs.None? {
      return None;
    }
    var tasks := BuildDaxTasks(jobs.value, fileToOwner, childToParents, parentToChildren, workflowName);
    DistinctTaskIds(tasks, jobs.value);
    r := NewWorkflow(tasks, workflowName);
    if r.Some? {
      assert r.value.tasks == tasks;
      assert DaxParsedFrom(r.value, jobs.value, pcs.value, workflowName);
    }
  }
}
