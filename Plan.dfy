/** The production plan (`project.json`) as the stages read it: a story made of
    named sections, each a list of paragraphs, each a list of segments; plus the
    publishing metadata. Every key a stage may find missing is an `Option`. */
module Plan {
  import opened Base

  datatype Effect = Effect(effectType: Option<string>, direction: Option<string>, speed: Option<string>)

  datatype Segment = Segment(
    segmentId: Option<string>,
    text: Option<string>,
    visualPrompt: Option<string>,
    aspectRatio: Option<string>,
    internalEffect: Option<Effect>,
    transitionEffect: Option<string>)

  datatype Paragraph = Paragraph(paragraphId: Option<string>, segments: Option<seq<Segment>>)

  datatype Section = Section(paragraphs: Option<seq<Paragraph>>)

  datatype Metadata = Metadata(
    title: Option<string>,
    description: Option<string>,
    narrator: Option<string>,
    tags: Option<seq<string>>,
    category: Option<string>,
    privacyStatus: Option<string>)

  /** `story` keeps the JSON object's key order (what `.values()` walks). */
  datatype Plan = Plan(
    story: Option<seq<(string, Section)>>,
    metadata: Option<Metadata>,
    hasFfmpegSettings: bool)

  /** `story[key]` when present (keys are taken to be distinct, as in a JSON object). */
  function Lookup(story: seq<(string, Section)>, key: string): (r: Option<Section>)
    ensures r.Some? <==> exists i :: 0 <= i < |story| && story[i].0 == key
    decreases |story|
  {
    if story == [] then None
    else if story[0].0 == key then Some(story[0].1)
    else
      var r := Lookup(story[1..], key);
      assert forall i :: 1 <= i < |story| ==> story[i] == story[1..][i - 1];
      r
  }

  // ---------------------------------------------------------------------------
  // The walk order: every segment, section by section, paragraph by paragraph.

  /** Concatenation of `flat(x)` over `xs`, in order. */
  function ConcatMap<X, Y>(xs: seq<X>, flat: X -> seq<Y>): seq<Y>
    decreases |xs|
  {
    if xs == [] then [] else ConcatMap(xs[..|xs| - 1], flat) + flat(xs[|xs| - 1])
  }

  /** A paragraph's segments; a missing `segments` key counts as none (`.get("segments", [])`). */
  function ParagraphSegments(p: Paragraph): seq<Segment> {
    p.segments.GetOr([])
  }

  function SectionSegments(s: Section): seq<Segment> {
    ConcatMap(s.paragraphs.GetOr([]), ParagraphSegments)
  }

  function EntrySegments(e: (string, Section)): seq<Segment> {
    SectionSegments(e.1)
  }

  /** Every segment of the plan in walk order, skipping missing keys. */
  function AllSegments(plan: Plan): seq<Segment> {
    if plan.story.None? then [] else ConcatMap(plan.story.value, EntrySegments)
  }

  /** No `story_structure`, `paragraphs` or `segments` key is missing along the walk. */
  predicate StructureComplete(plan: Plan) {
    && plan.story.Some?
    && (forall e :: e in plan.story.value ==> e.1.paragraphs.Some?)
    && (forall e, p :: e in plan.story.value && e.1.paragraphs.Some? && p in e.1.paragraphs.value
          ==> p.segments.Some?)
  }

  // ---------------------------------------------------------------------------
  // The strict walk: the nested loops of the stages that index the plan with
  // `[...]` and stop at the first missing key (a KeyError).

  /** What a strict walk produced: the jobs collected before it stopped, and the
      key whose absence stopped it, if any. */
  datatype Walk<J> = Walk(jobs: seq<J>, missing: Option<string>)

  /** Walk `w`, then walk `v` unless `w` already stopped. */
  function Then<J>(w: Walk<J>, v: Walk<J>): Walk<J> {
    if w.missing.Some? then w else Walk(w.jobs + v.jobs, v.missing)
  }

  function One<J>(r: Result<J, string>): Walk<J> {
    match r
    case Ok(j) => Walk([j], None)
    case Err(key) => Walk([], Some(key))
  }

  function Fold<X, J>(xs: seq<X>, g: X -> Walk<J>): Walk<J>
    decreases |xs|
  {
    if xs == [] then Walk([], None) else Then(Fold(xs[..|xs| - 1], g), g(xs[|xs| - 1]))
  }

  function SegmentStep<J>(job: Segment -> Result<J, string>): Segment -> Walk<J> {
    (s: Segment) => One(job(s))
  }

  function ParagraphStep<J>(job: Segment -> Result<J, string>): Paragraph -> Walk<J> {
    (p: Paragraph) => WalkParagraph(p, job)
  }

  function SectionStep<J>(job: Segment -> Result<J, string>): ((string, Section)) -> Walk<J> {
    (e: (string, Section)) => WalkSection(e.1, job)
  }

  function WalkSegments<J>(segs: seq<Segment>, job: Segment -> Result<J, string>): Walk<J> {
    Fold(segs, SegmentStep(job))
  }

  function WalkParagraph<J>(p: Paragraph, job: Segment -> Result<J, string>): Walk<J> {
    if p.segments.None? then Walk([], Some("segments")) else WalkSegments(p.segments.value, job)
  }

  function WalkSection<J>(s: Section, job: Segment -> Result<J, string>): Walk<J> {
    if s.paragraphs.None? then Walk([], Some("paragraphs"))
    else Fold(s.paragraphs.value, ParagraphStep(job))
  }

  function WalkStory<J>(story: seq<(string, Section)>, job: Segment -> Result<J, string>): Walk<J> {
    Fold(story, SectionStep(job))
  }

  /** The strict walk of a whole plan. */
  function WalkPlan<J>(plan: Plan, job: Segment -> Result<J, string>): Walk<J> {
    if plan.story.None? then Walk([], Some("story_structure")) else WalkStory(plan.story.value, job)
  }

  /** The jobs of `w` are the jobs of the first segments of `segs`, index by index,
      and all of `segs` is covered when the walk did not stop. */
  ghost predicate Agrees<J>(w: Walk<J>, segs: seq<Segment>, job: Segment -> Result<J, string>) {
    && |w.jobs| <= |segs|
    && (forall k :: 0 <= k < |w.jobs| ==> job(segs[k]) == Ok(w.jobs[k]))
    && (w.missing.None? ==> |w.jobs| == |segs|)
  }

  ghost predicate AllOk<J>(segs: seq<Segment>, job: Segment -> Result<J, string>) {
    forall k :: 0 <= k < |segs| ==> job(segs[k]).Ok?
  }

  lemma AllOkAppend<J>(a: seq<Segment>, b: seq<Segment>, job: Segment -> Result<J, string>)
    ensures AllOk(a + b, job) <==> AllOk(a, job) && AllOk(b, job)
  {
    if AllOk(a, job) && AllOk(b, job) {
      forall k | 0 <= k < |a + b| ensures job((a + b)[k]).Ok? {
        if k >= |a| { assert (a + b)[k] == b[k - |a|]; }
      }
    }
    if AllOk(a + b, job) {
      forall k | 0 <= k < |b| ensures job(b[k]).Ok? { assert (a + b)[|a| + k] == b[k]; }
      forall k | 0 <= k < |a| ensures job(a[k]).Ok? { assert (a + b)[k] == a[k]; }
    }
  }

  /** Walking two parts in turn agrees with their concatenation. */
  lemma ThenAgrees<J>(w: Walk<J>, a: seq<Segment>, v: Walk<J>, b: seq<Segment>, job: Segment -> Result<J, string>)
    requires Agrees(w, a, job) && Agrees(v, b, job)
    ensures Agrees(Then(w, v), a + b, job)
  {
    var t := Then(w, v);
    if w.missing.None? {
      forall k | 0 <= k < |t.jobs| ensures job((a + b)[k]) == Ok(t.jobs[k]) {
        if k < |w.jobs| {
          assert (a + b)[k] == a[k];
        } else {
          assert (a + b)[k] == b[k - |a|];
          assert t.jobs[k] == v.jobs[k - |w.jobs|];
        }
      }
    } else {
      forall k | 0 <= k < |t.jobs| ensures job((a + b)[k]) == Ok(t.jobs[k]) {
        assert (a + b)[k] == a[k];
      }
    }
  }

  /** A fold agrees with the concatenation of its parts when every part agrees,
      and it runs to the end exactly when every part does. */
  lemma {:induction false} FoldAgrees<X, J>(xs: seq<X>, g: X -> Walk<J>, flat: X -> seq<Segment>, job: Segment -> Result<J, string>)
    requires forall x :: x in xs ==> Agrees(g(x), flat(x), job)
    ensures Agrees(Fold(xs, g), ConcatMap(xs, flat), job)
    ensures Fold(xs, g).missing.None? <==> forall x :: x in xs ==> g(x).missing.None?
    decreases |xs|
  {
    if xs != [] {
      var init, last := xs[..|xs| - 1], xs[|xs| - 1];
      assert forall x :: x in init ==> x in xs;
      FoldAgrees(init, g, flat, job);
      ThenAgrees(Fold(init, g), ConcatMap(init, flat), g(last), flat(last), job);
      assert forall x :: x in xs ==> x in init || x == last;
    }
  }

  /** A part that runs to the end covers all of its segments, and each of them
      has a job. */
  lemma FullWalkAllOk<J>(w: Walk<J>, segs: seq<Segment>, job: Segment -> Result<J, string>)
    requires Agrees(w, segs, job) && w.missing.None?
    ensures AllOk(segs, job)
  {
  }

  /** The parts of a concatenation that succeeds on every segment each succeed. */
  lemma {:induction false} ConcatMapAllOk<X, J>(xs: seq<X>, flat: X -> seq<Segment>, job: Segment -> Result<J, string>)
    ensures AllOk(ConcatMap(xs, flat), job) <==> forall x :: x in xs ==> AllOk(flat(x), job)
    decreases |xs|
  {
    if xs != [] {
      var init, last := xs[..|xs| - 1], xs[|xs| - 1];
      ConcatMapAllOk(init, flat, job);
      AllOkAppend(ConcatMap(init, flat), flat(last), job);
      assert forall x :: x in xs ==> x in init || x == last;
      assert forall x :: x in init ==> x in xs;
    }
  }

  lemma SegmentsAgree<J>(segs: seq<Segment>, job: Segment -> Result<J, string>)
    ensures Agrees(WalkSegments(segs, job), segs, job)
    ensures WalkSegments(segs, job).missing.None? <==> AllOk(segs, job)
  {
    var g := SegmentStep(job);
    var single := (s: Segment) => [s];
    forall x | x in segs ensures Agrees(g(x), single(x), job) {}
    FoldAgrees(segs, g, single, job);
    ConcatMapSingles(segs);
    if AllOk(segs, job) {
      forall x | x in segs ensures g(x).missing.None? {
        var k :| 0 <= k < |segs| && segs[k] == x;
      }
    }
  }

  lemma {:induction false} ConcatMapSingles(segs: seq<Segment>)
    ensures ConcatMap(segs, (s: Segment) => [s]) == segs
    decreases |segs|
  {
    if segs != [] {
      ConcatMapSingles(segs[..|segs| - 1]);
      assert segs[..|segs| - 1] + [segs[|segs| - 1]] == segs;
    }
  }

  lemma ParagraphAgrees<J>(p: Paragraph, job: Segment -> Result<J, string>)
    ensures Agrees(WalkParagraph(p, job), ParagraphSegments(p), job)
    ensures WalkParagraph(p, job).missing.None? <==> p.segments.Some? && AllOk(ParagraphSegments(p), job)
  {
    if p.segments.Some? { SegmentsAgree(p.segments.value, job); }
  }

  lemma SectionAgrees<J>(s: Section, job: Segment -> Result<J, string>)
    ensures Agrees(WalkSection(s, job), SectionSegments(s), job)
    ensures WalkSection(s, job).missing.None? <==>
      && s.paragraphs.Some?
      && (forall p :: p in s.paragraphs.value ==> p.segments.Some?)
      && AllOk(SectionSegments(s), job)
  {
    if s.paragraphs.Some? {
      var paras := s.paragraphs.value;
      var g := ParagraphStep(job);
      forall p | p in paras ensures Agrees(g(p), ParagraphSegments(p), job) {
        ParagraphAgrees(p, job);
      }
      FoldAgrees(paras, g, ParagraphSegments, job);
      ConcatMapAllOk(paras, ParagraphSegments, job);
      forall p | p in paras
        ensures g(p).missing.None? <==> p.segments.Some? && AllOk(ParagraphSegments(p), job)
      {
        ParagraphAgrees(p, job);
      }
    }
  }

  /** What the strict walk of a plan means: its jobs are the jobs of the first
      segments in walk order, index by index; it runs to the end exactly when no
      structural key is missing and every segment yields a job, and then it covers
      every segment. */
  lemma WalkPlanMeaning<J>(plan: Plan, job: Segment -> Result<J, string>)
    ensures Agrees(WalkPlan(plan, job), AllSegments(plan), job)
    ensures WalkPlan(plan, job).missing.None? <==> StructureComplete(plan) && AllOk(AllSegments(plan), job)
  {
    if plan.story.Some? {
      var story := plan.story.value;
      var g := SectionStep(job);
      forall e | e in story ensures Agrees(g(e), EntrySegments(e), job) {
        SectionAgrees(e.1, job);
      }
      FoldAgrees(story, g, EntrySegments, job);
      ConcatMapAllOk(story, EntrySegments, job);
      forall e | e in story
        ensures g(e).missing.None? <==>
          && e.1.paragraphs.Some?
          && (forall p :: p in e.1.paragraphs.value ==> p.segments.Some?)
          && AllOk(EntrySegments(e), job)
      {
        SectionAgrees(e.1, job);
      }
    }
  }

  // ---------------------------------------------------------------------------
  // The nested loops themselves.

  lemma {:induction false} FoldStopped<X, J>(xs: seq<X>, n: nat, g: X -> Walk<J>)
    requires n <= |xs|
    requires Fold(xs[..n], g).missing.Some?
    ensures Fold(xs, g) == Fold(xs[..n], g)
    decreases |xs|
  {
    if n < |xs| {
      assert xs[..|xs| - 1][..n] == xs[..n];
      FoldStopped(xs[..|xs| - 1], n, g);
    } else {
      assert xs[..n] == xs;
    }
  }

  lemma FoldStep<X, J>(xs: seq<X>, i: nat, g: X -> Walk<J>)
    requires i < |xs|
    ensures Fold(xs[..i + 1], g) == Then(Fold(xs[..i], g), g(xs[i]))
  {
    assert xs[..i + 1][..i] == xs[..i];
  }

  /** The innermost loop of the stages: one job per segment of a paragraph,
      stopping at the first segment that lacks a key. */
  method CollectSegmentJobs<J>(segs: seq<Segment>, job: Segment -> Result<J, string>) returns (w: Walk<J>)
    ensures w == WalkSegments(segs, job)
  {
    var g := SegmentStep(job);
    var acc: seq<J> := [];
    var k := 0;
    while k < |segs|
      invariant 0 <= k <= |segs|
      invariant Fold(segs[..k], g) == Walk(acc, None)
    {
      FoldStep(segs, k, g);
      match job(segs[k]) {
        case Err(key) =>
          FoldStopped(segs, k + 1, g);
          return Walk(acc, Some(key));
        case Ok(v) =>
          acc := acc + [v];
      }
      k := k + 1;
    }
    assert segs[..k] == segs;
    w := Walk(acc, None);
  }

  /** The paragraph loop of one section. */
  method CollectSectionJobs<J>(section: Section, job: Segment -> Result<J, string>) returns (w: Walk<J>)
    ensures w == WalkSection(section, job)
  {
    if section.paragraphs.None? {
      return Walk([], Some("paragraphs"));
    }
    var paras := section.paragraphs.value;
    var g := ParagraphStep(job);
    var acc: seq<J> := [];
    var j := 0;
    while j < |paras|
      invariant 0 <= j <= |paras|
      invariant Fold(paras[..j], g) == Walk(acc, None)
    {
      FoldStep(paras, j, g);
      var inner: Walk<J>;
      if paras[j].segments.None? {
        inner := Walk([], Some("segments"));
      } else {
        inner := CollectSegmentJobs(paras[j].segments.value, job);
      }
      assert inner == g(paras[j]);
      if inner.missing.Some? {
        FoldStopped(paras, j + 1, g);
        return Walk(acc + inner.jobs, inner.missing);
      }
      acc := acc + inner.jobs;
      j := j + 1;
    }
    assert paras[..j] == paras;
    w := Walk(acc, None);
  }

  /** The section → paragraph → segment loops of the stages, collecting one job per
      segment and stopping at the first missing key. */
  method CollectJobs<J>(plan: Plan, job: Segment -> Result<J, string>) returns (w: Walk<J>)
    ensures w == WalkPlan(plan, job)
  {
    if plan.story.None? {
      return Walk([], Some("story_structure"));
    }
    var story := plan.story.value;
    var g := SectionStep(job);
    var acc: seq<J> := [];
    var i := 0;
    while i < |story|
      invariant 0 <= i <= |story|
      invariant Fold(story[..i], g) == Walk(acc, None)
    {
      FoldStep(story, i, g);
      var inner := CollectSectionJobs(story[i].1, job);
      assert inner == g(story[i]);
      if inner.missing.Some? {
        FoldStopped(story, i + 1, g);
        return Walk(acc + inner.jobs, inner.missing);
      }
      acc := acc + inner.jobs;
      i := i + 1;
    }
    assert story[..i] == story;
    w := Walk(acc, None);
  }
}
