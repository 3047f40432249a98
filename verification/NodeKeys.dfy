/** The node keys of a live graph (apps/api/src/orchestrator/feedback.ts, revisionNodeKeys): the planned
    nodes' ids, and for every task appended later a key made from them. A graph's keys are unique. */
module NodeKeys {
  import opened Options
  import opened TaskGraph
  import opened TaskGraphShape
  import opened TaskGraphAcceptance
  import PlanTasks
  import opened LiveGraph
  import opened Revisions
  import RevisionChains
  import RevisionStart
  import Kahn

  type NodeKey = string

  // ---------------------------------------------------------------- the keys

  /** What a key is made for: the post, action and revision of an AgentTask row. */
  datatype Mark = Mark(post: Option<PostRef>, action: Action, revision: nat)

  function MarksOf(tasks: Tasks): (marks: seq<Mark>)
    ensures |marks| == |tasks|
  {
    seq(|tasks|, t requires 0 <= t < |tasks| => Mark(tasks[t].post, tasks[t].action, tasks[t].revision))
  }

  function Name(action: Action): string {
    match action
    case Strategy => "strategy"
    case Write => "write"
    case Direct => "direct"
    case Adapt => "adapt"
    case Qa => "qa"
  }

  predicate PlannedFor(mark: Mark, post: PostRef) {
    mark.post == Some(post) && mark.revision == 0
  }

  /** plannedKey: the post's row of revision 0 with the action (the last of several). */
  function PlannedRow(marks: seq<Mark>, post: PostRef, action: Action): (row: Option<nat>)
    ensures row.Some? ==> row.value < |marks| && marks[row.value] == Mark(Some(post), action, 0)
    ensures row.None? ==> Mark(Some(post), action, 0) !in marks
  {
    if marks == [] then None
    else
      var n := |marks| - 1;
      if marks[n] == Mark(Some(post), action, 0) then Some(n) else PlannedRow(marks[..n], post, action)
  }

  function Suffix(revision: nat): string {
    ".r" + Digits(revision)
  }

  /** revisionNodeKeys: "<planned>.rN", or "<anchor>-<action>.rN" for an action the plan did not have. */
  function KeyFor(marks: seq<Mark>, keys: seq<NodeKey>, post: PostRef, anchor: Option<nat>, action: Action, revision: nat): NodeKey
    requires |keys| == |marks|
  {
    var planned := PlannedRow(marks, post, action);
    (if planned.Some? then keys[planned.value]
     else (if anchor.Some? && anchor.value < |keys| then keys[anchor.value] else post) + "-" + Name(action)) + Suffix(revision)
  }

  // ---------------------------------------------------------------- the table and its steps

  /** `revisions` holds each post's revision count. */
  datatype Book = Book(g: Graph, keys: seq<NodeKey>, revisions: map<PostRef, nat>)

  /** planned[0]: some row of the post's revision 0 (rows of one transaction may share their creation time). */
  predicate AnchorFits(marks: seq<Mark>, post: PostRef, anchor: Option<nat>) {
    match anchor
    case Some(a) => a < |marks| && PlannedFor(marks[a], post)
    case None => forall t :: 0 <= t < |marks| ==> !PlannedFor(marks[t], post)
  }

  predicate HasRow(marks: seq<Mark>, post: PostRef) {
    exists t :: 0 <= t < |marks| && marks[t].post == Some(post)
  }

  function ChainMarks(post: PostRef, actions: seq<Action>, revision: nat): (marks: seq<Mark>)
    ensures |marks| == |actions|
  {
    seq(|actions|, k requires 0 <= k < |actions| => Mark(Some(post), actions[k], revision))
  }

  function ChainKeys(marks: seq<Mark>, keys: seq<NodeKey>, post: PostRef, anchor: Option<nat>, actions: seq<Action>, revision: nat)
      : (more: seq<NodeKey>)
    requires |keys| == |marks|
    ensures |more| == |actions|
  {
    seq(|actions|, k requires 0 <= k < |actions| => KeyFor(marks, keys, post, anchor, actions[k], revision))
  }

  /** appendRevision, for the post's next revision; a post without tasks has nothing to revise. */
  function RevisePost(b: Book, post: PostRef, target: Target, enabled: set<Action>, fromQa: bool, anchor: Option<nat>): Book
    requires |b.keys| == |b.g.tasks|
  {
    var marks := MarksOf(b.g.tasks);
    if post !in b.revisions || !HasRow(marks, post) then b
    else
      var revision, actions := b.revisions[post] + 1, RevisionActions(target, enabled);
      Book(b.g.(tasks := Append(b.g.tasks, Some(post), revision, actions, fromQa)),
           b.keys + ChainKeys(marks, b.keys, post, anchor, actions, revision),
           b.revisions[post := revision])
  }

  /** runWrite's transaction, with the key of the direct it may splice in. */
  function FinishWriteIn(b: Book, w: TaskId, gaps: bool, anchor: Option<nat>): Book
    requires |b.keys| == |b.g.tasks|
  {
    if !CanMove(b.g.tasks, w, Succeed) then b
    else
      var write := b.g.tasks[w];
      var spliced := gaps && write.post.Some? && !HasDirect(b.g.tasks, w);
      b.(g := FinishWrite(b.g, w, spliced),
         keys := b.keys + if spliced then [KeyFor(MarksOf(b.g.tasks), b.keys, write.post.value, anchor, Direct, write.revision)] else [])
  }

  datatype Step =
    | SGraph(step: LiveGraph.Step)
    | SFinish(write: TaskId, gaps: bool, anchor: Option<nat>)
    | SRevise(post: PostRef, target: Target, enabled: set<Action>, fromQa: bool, anchor: Option<nat>)

  /** The steps that append rows are SFinish and SRevise; the anchor is one the query may find first. */
  predicate Possible(b: Book, step: Step) {
    match step
    case SGraph(graphStep) => !graphStep.SFinishWrite? && !graphStep.SAppend?
    case SFinish(w, _, anchor) => w < |b.g.tasks| && b.g.tasks[w].post.Some? ==> AnchorFits(MarksOf(b.g.tasks), b.g.tasks[w].post.value, anchor)
    case SRevise(post, _, _, _, anchor) => AnchorFits(MarksOf(b.g.tasks), post, anchor)
  }

  function Next(b: Book, step: Step): (after: Book)
    requires |b.keys| == |b.g.tasks|
    ensures |after.keys| == |after.g.tasks|
  {
    match step
    case SGraph(graphStep) => if graphStep.SFinishWrite? || graphStep.SAppend? then b else b.(g := LiveGraph.Next(b.g, graphStep))
    case SFinish(w, gaps, anchor) => FinishWriteIn(b, w, gaps, anchor)
    case SRevise(post, target, enabled, fromQa, anchor) => RevisePost(b, post, target, enabled, fromQa, anchor)
  }

  // ---------------------------------------------------------------- texts

  predicate IsDigit(c: char) {
    '0' <= c <= '9'
  }

  predicate AllDigits(s: string) {
    forall i :: 0 <= i < |s| ==> IsDigit(s[i])
  }

  /** The contract's NodeId: "n" and one to four digits. */
  predicate IsNodeId(s: string) {
    2 <= |s| <= 5 && s[0] == 'n' && AllDigits(s[1..])
  }

  lemma {:induction false} DigitsAreDigits(n: nat)
    ensures AllDigits(Digits(n))
  {
    if n >= 10 {
      DigitsAreDigits(n / 10);
    }
  }

  lemma CutIsLater(c: char, head: string, tail: string, other: string, rest: string)
    requires head + [c] + tail == other + [c] + rest && |head| < |other|
    ensures c in tail
  {
    assert (other + [c] + rest)[|other|] == c;
    assert tail[|other| - |head| - 1] == (head + [c] + tail)[|other|];
  }

  /** Cut at the last of a character, a text has one head and one tail. */
  lemma CutOnce(c: char, head: string, tail: string, other: string, rest: string)
    requires head + [c] + tail == other + [c] + rest && c !in tail && c !in rest
    ensures head == other && tail == rest
  {
    if |head| < |other| {
      CutIsLater(c, head, tail, other, rest);
    }
    if |other| < |head| {
      CutIsLater(c, other, rest, head, tail);
    }
    var s, t := head + [c] + tail, other + [c] + rest;
    assert head == s[..|head|] && other == t[..|other|];
    assert tail == s[|head| + 1..] && rest == t[|other| + 1..];
  }

  lemma SuffixCutOnce(stem: string, revision: nat, other: string, r: nat)
    requires stem + Suffix(revision) == other + Suffix(r)
    ensures stem == other && revision == r
  {
    DigitsAreDigits(revision);
    DigitsAreDigits(r);
    var tail, rest := "r" + Digits(revision), "r" + Digits(r);
    assert stem + Suffix(revision) == stem + ['.'] + tail && other + Suffix(r) == other + ['.'] + rest;
    CutOnce('.', stem, tail, other, rest);
    assert tail[1..] == Digits(revision) && rest[1..] == Digits(r);
    DigitsInjective(revision, r);
  }

  lemma NameCutOnce(stem: string, a: Action, other: string, b: Action)
    requires stem + "-" + Name(a) == other + "-" + Name(b)
    ensures stem == other && a == b
  {
    CutOnce('-', stem, Name(a), other, Name(b));
  }

  predicate EndsInDigit(s: string) {
    s != "" && IsDigit(s[|s| - 1])
  }

  lemma NamesEndInLetters(stem: string, action: Action)
    ensures !EndsInDigit(stem + "-" + Name(action))
  {
    var s := stem + "-" + Name(action);
    assert s[|s| - 1] == Name(action)[|Name(action)| - 1];
  }

  lemma SuffixEndsInDigit(stem: string, revision: nat)
    ensures EndsInDigit(stem + Suffix(revision)) && !IsNodeId(stem + Suffix(revision))
  {
    DigitsAreDigits(revision);
    var s, digits := stem + Suffix(revision), Digits(revision);
    assert s[|s| - 1] == digits[|digits| - 1];
    assert s[|stem|] == '.';
    if IsNodeId(s) {
      NodeIdsArePlain(s);
    }
  }

  lemma NodeIdsArePlain(s: string)
    requires IsNodeId(s)
    ensures '.' !in s && '-' !in s
  {
    forall i | 0 <= i < |s| ensures s[i] != '.' && s[i] != '-' {
      assert i > 0 ==> s[i] == s[1..][i - 1];
    }
  }

  /** Everything before the first point or hyphen. */
  function Lead(s: string): (lead: string)
    ensures lead <= s
  {
    if s == "" || s[0] == '.' || s[0] == '-' then "" else [s[0]] + Lead(s[1..])
  }

  lemma {:induction false} LeadStays(s: string, more: string)
    requires more != "" && more[0] in {'.', '-'}
    ensures Lead(s + more) == Lead(s)
  {
    if s == "" {
      assert s + more == more;
    } else {
      assert (s + more)[1..] == s[1..] + more;
      LeadStays(s[1..], more);
    }
  }

  lemma {:induction false} PlainLead(s: string)
    requires forall i :: 0 <= i < |s| ==> s[i] != '.' && s[i] != '-'
    ensures Lead(s) == s
  {
    if s != "" {
      PlainLead(s[1..]);
    }
  }

  lemma NodeIdLead(s: string)
    requires IsNodeId(s)
    ensures Lead(s) == s && EndsInDigit(s)
  {
    NodeIdsArePlain(s);
    PlainLead(s);
    assert s[|s| - 1] == s[1..][|s| - 2];
  }

  // ---------------------------------------------------------------- what every key is

  /** What the suffix is put after: the base row's key, or that and the action's name. */
  ghost function StemFrom(stem: NodeKey, mark: Mark, plain: bool): NodeKey {
    if plain then stem else stem + "-" + Name(mark.action)
  }

  /** Made from a row of the post's revision 0, with the same action when `plain`. */
  ghost predicate MadeFrom(base: Mark, stem: NodeKey, mark: Mark, key: NodeKey, plain: bool) {
    && mark.post.Some? && base.post == mark.post && base.revision == 0
    && (plain ==> base.action == mark.action && mark.revision > 0)
    && key == StemFrom(stem, mark, plain) + Suffix(mark.revision)
  }

  ghost predicate LeadIs(marks: seq<Mark>, keys: seq<NodeKey>, mark: Mark, key: NodeKey)
    requires |keys| == |marks|
  {
    exists q :: 0 <= q < |keys| && marks[q].post == mark.post && marks[q].revision == 0 && IsNodeId(keys[q]) && keys[q] == Lead(key)
  }

  /** The plan has a node for the post's action. */
  predicate PlanHas(marks: seq<Mark>, keys: seq<NodeKey>, mark: Mark)
    requires |keys| == |marks|
  {
    exists i :: 0 <= i < |keys| && marks[i] == Mark(mark.post, mark.action, 0) && IsNodeId(keys[i])
  }

  ghost predicate KeyFits(marks: seq<Mark>, keys: seq<NodeKey>, mark: Mark, key: NodeKey)
    requires |keys| == |marks|
  {
    && LeadIs(marks, keys, mark, key) && EndsInDigit(key)
    && (if IsNodeId(key) then mark.revision == 0
        else exists q, plain :: 0 <= q < |keys| && MadeFrom(marks[q], keys[q], mark, key, plain) && (plain || !PlanHas(marks, keys, mark)))
  }

  ghost predicate Once(marks: seq<Mark>) {
    forall t, u :: 0 <= t < u < |marks| && marks[t].post.Some? ==> marks[t] != marks[u]
  }

  ghost predicate AllDistinct(keys: seq<NodeKey>) {
    forall t, u :: 0 <= t < u < |keys| ==> keys[t] != keys[u]
  }

  ghost predicate KeysFit(marks: seq<Mark>, keys: seq<NodeKey>) {
    && |keys| == |marks| && Once(marks) && AllDistinct(keys)
    && forall t :: 0 <= t < |keys| ==> KeyFits(marks, keys, marks[t], keys[t])
  }

  lemma StemsOnce(stem: NodeKey, m: Mark, plain: bool, other: NodeKey, n: Mark, plain': bool)
    requires EndsInDigit(stem) && EndsInDigit(other)
    requires StemFrom(stem, m, plain) + Suffix(m.revision) == StemFrom(other, n, plain') + Suffix(n.revision)
    ensures m.revision == n.revision && plain == plain' && stem == other && (!plain ==> m.action == n.action)
  {
    hide Suffix, Name, EndsInDigit;
    SuffixCutOnce(StemFrom(stem, m, plain), m.revision, StemFrom(other, n, plain'), n.revision);
    NamesEndInLetters(stem, m.action);
    NamesEndInLetters(other, n.action);
    if !plain && !plain' {
      NameCutOnce(stem, m.action, other, n.action);
    }
  }

  /** A key that is made tells the action and the revision it was made for, whatever rows it was made from. */
  lemma MadeOnce(marks: seq<Mark>, keys: seq<NodeKey>, p: nat, m: Mark, plain: bool, q: nat, n: Mark, plain': bool, key: NodeKey)
    requires KeysFit(marks, keys) && p < |keys| && q < |keys|
    requires MadeFrom(marks[p], keys[p], m, key, plain) && MadeFrom(marks[q], keys[q], n, key, plain')
    ensures m.revision == n.revision && m.action == n.action
  {
    assert KeyFits(marks, keys, marks[p], keys[p]) && KeyFits(marks, keys, marks[q], keys[q]);
    assert keys[p] == keys[q] ==> p == q;
    hide Suffix, KeyFits, KeysFit, EndsInDigit, StemFrom;
    StemsOnce(keys[p], m, plain, keys[q], n, plain');
  }

  lemma LeadOnce(marks: seq<Mark>, keys: seq<NodeKey>, m: Mark, n: Mark, key: NodeKey)
    requires KeysFit(marks, keys) && LeadIs(marks, keys, m, key) && LeadIs(marks, keys, n, key)
    ensures m.post == n.post
  {
    hide KeyFits, Lead, IsNodeId;
  }

  // ---------------------------------------------------------------- a row more

  lemma MoreIsNoPlan(marks: seq<Mark>, keys: seq<NodeKey>, more: Mark, key: NodeKey, mark: Mark)
    requires |keys| == |marks| && !IsNodeId(key)
    ensures PlanHas(marks + [more], keys + [key], mark) <==> PlanHas(marks, keys, mark)
  {
    hide IsNodeId;
    var marks', keys' := marks + [more], keys + [key];
    if PlanHas(marks, keys, mark) {
      var i :| 0 <= i < |keys| && marks[i] == Mark(mark.post, mark.action, 0) && IsNodeId(keys[i]);
      assert marks'[i] == marks[i] && keys'[i] == keys[i];
    }
  }

  lemma MoreKeepsFits(marks: seq<Mark>, keys: seq<NodeKey>, more: Mark, key: NodeKey, t: nat)
    requires |keys| == |marks| && !IsNodeId(key) && t < |keys| && KeyFits(marks, keys, marks[t], keys[t])
    ensures KeyFits(marks + [more], keys + [key], marks[t], keys[t])
  {
    hide MadeFrom, Lead, IsNodeId, EndsInDigit;
    var marks', keys' := marks + [more], keys + [key];
    var q :| 0 <= q < |keys| && marks[q].post == marks[t].post && marks[q].revision == 0 && IsNodeId(keys[q]) && keys[q] == Lead(keys[t]);
    assert marks'[q] == marks[q] && keys'[q] == keys[q];
    if !IsNodeId(keys[t]) {
      var p, plain :| 0 <= p < |keys| && MadeFrom(marks[p], keys[p], marks[t], keys[t], plain) && (plain || !PlanHas(marks, keys, marks[t]));
      assert marks'[p] == marks[p] && keys'[p] == keys[p];
      MoreIsNoPlan(marks, keys, more, key, marks[t]);
    }
  }

  /** The key made for a new action and revision of a post is new. */
  lemma MadeIsNew(marks: seq<Mark>, keys: seq<NodeKey>, p: nat, more: Mark, key: NodeKey, plain: bool, t: nat)
    requires KeysFit(marks, keys) && p < |keys| && MadeFrom(marks[p], keys[p], more, key, plain) && more !in marks
    requires LeadIs(marks, keys, more, key) && t < |keys|
    ensures keys[t] != key
  {
    hide MadeFrom, Lead, Once, AllDistinct, LeadIs;
    assert KeyFits(marks, keys, marks[t], keys[t]) && marks[t] in marks;
    if keys[t] == key {
      MadeKeyIsNoNodeId(marks[p], keys[p], more, key, plain);
      var q, plain' :| 0 <= q < |keys| && MadeFrom(marks[q], keys[q], marks[t], keys[t], plain');
      MadeOnce(marks, keys, p, more, plain, q, marks[t], plain', key);
      LeadOnce(marks, keys, more, marks[t], key);
    }
  }

  lemma MadeKeyIsNoNodeId(base: Mark, stem: NodeKey, mark: Mark, key: NodeKey, plain: bool)
    requires MadeFrom(base, stem, mark, key, plain)
    ensures !IsNodeId(key) && EndsInDigit(key)
  {
    SuffixEndsInDigit(StemFrom(stem, mark, plain), mark.revision);
  }

  /** Neither end of a made key changes what it leads with. */
  lemma StemLead(stem: NodeKey, mark: Mark, plain: bool)
    ensures Lead(StemFrom(stem, mark, plain)) == Lead(stem)
  {
    hide Name, Lead;
    if !plain {
      var more := "-" + Name(mark.action);
      assert more[0] == '-';
      assert stem + "-" + Name(mark.action) == stem + more;
      LeadStays(stem, more);
    }
  }

  lemma MadeLead(base: Mark, stem: NodeKey, mark: Mark, key: NodeKey, plain: bool)
    requires MadeFrom(base, stem, mark, key, plain)
    ensures Lead(key) == Lead(stem)
  {
    hide StemFrom, Lead;
    assert Suffix(mark.revision) != "" && Suffix(mark.revision)[0] == '.';
    LeadStays(StemFrom(stem, mark, plain), Suffix(mark.revision));
    StemLead(stem, mark, plain);
  }

  lemma MadeLeadIs(marks: seq<Mark>, keys: seq<NodeKey>, p: nat, more: Mark, key: NodeKey, plain: bool)
    requires |keys| == |marks| && p < |keys| && KeyFits(marks, keys, marks[p], keys[p])
    requires MadeFrom(marks[p], keys[p], more, key, plain)
    ensures LeadIs(marks, keys, more, key)
  {
    MadeLead(marks[p], keys[p], more, key, plain);
    hide IsNodeId, EndsInDigit, Lead, StemFrom;
    var q :| 0 <= q < |keys| && marks[q].post == marks[p].post && marks[q].revision == 0 && IsNodeId(keys[q]) && keys[q] == Lead(keys[p]);
  }

  lemma MadeFits(marks: seq<Mark>, keys: seq<NodeKey>, p: nat, more: Mark, key: NodeKey, plain: bool)
    requires |keys| == |marks| && p < |keys| && MadeFrom(marks[p], keys[p], more, key, plain) && LeadIs(marks, keys, more, key)
    requires plain || !PlanHas(marks, keys, more)
    ensures KeyFits(marks + [more], keys + [key], more, key)
  {
    MadeKeyIsNoNodeId(marks[p], keys[p], more, key, plain);
    hide MadeFrom, Lead, IsNodeId, EndsInDigit;
    var marks', keys' := marks + [more], keys + [key];
    var q :| 0 <= q < |keys| && marks[q].post == more.post && marks[q].revision == 0 && IsNodeId(keys[q]) && keys[q] == Lead(key);
    assert marks'[q] == marks[q] && keys'[q] == keys[q] && marks'[p] == marks[p] && keys'[p] == keys[p];
    MoreIsNoPlan(marks, keys, more, key, more);
  }

  lemma OneMoreFits(marks: seq<Mark>, keys: seq<NodeKey>, p: nat, more: Mark, key: NodeKey, plain: bool)
    requires KeysFit(marks, keys) && p < |keys| && MadeFrom(marks[p], keys[p], more, key, plain) && more !in marks
    requires plain || !PlanHas(marks, keys, more)
    ensures KeysFit(marks + [more], keys + [key])
  {
    hide MadeFrom, KeyFits, LeadIs, PlanHas;
    assert KeyFits(marks, keys, marks[p], keys[p]);
    MadeKeyIsNoNodeId(marks[p], keys[p], more, key, plain);
    MadeLeadIs(marks, keys, p, more, key, plain);
    MadeFits(marks, keys, p, more, key, plain);
    var marks', keys' := marks + [more], keys + [key];
    forall t | 0 <= t < |keys'| ensures KeyFits(marks', keys', marks'[t], keys'[t]) {
      if t < |keys| {
        assert KeyFits(marks, keys, marks[t], keys[t]);
        MoreKeepsFits(marks, keys, more, key, t);
      }
    }
    forall t | 0 <= t < |keys| ensures keys[t] != key {
      MadeIsNew(marks, keys, p, more, key, plain, t);
    }
    OneMoreOnce(marks, more);
  }

  lemma OneMoreOnce(marks: seq<Mark>, more: Mark)
    requires Once(marks) && more !in marks
    ensures Once(marks + [more])
  {
    forall t | 0 <= t < |marks| ensures marks[t] != more {
      assert marks[t] in marks;
    }
  }

  // ---------------------------------------------------------------- the steps

  /** Rows belong to posts that are counted, none past its post's revision. */
  ghost predicate Counted(marks: seq<Mark>, revisions: map<PostRef, nat>) {
    forall t :: 0 <= t < |marks| && marks[t].post.Some? ==>
      marks[t].post.value in revisions && marks[t].revision <= revisions[marks[t].post.value]
  }

  ghost predicate BookFits(b: Book) {
    |b.keys| == |b.g.tasks| && KeysFit(MarksOf(b.g.tasks), b.keys) && Counted(MarksOf(b.g.tasks), b.revisions)
  }

  lemma KeyForIsMade(marks: seq<Mark>, keys: seq<NodeKey>, post: PostRef, anchor: Option<nat>, action: Action, revision: nat)
      returns (p: nat, plain: bool)
    requires |keys| == |marks| && KeysFit(marks, keys) && AnchorFits(marks, post, anchor) && HasRow(marks, post)
    requires revision == 0 ==> Mark(Some(post), action, 0) !in marks
    ensures p < |keys| && MadeFrom(marks[p], keys[p], Mark(Some(post), action, revision), KeyFor(marks, keys, post, anchor, action, revision), plain)
    ensures plain || !PlanHas(marks, keys, Mark(Some(post), action, revision))
  {
    hide Suffix, Name, KeysFit, HasRow, PlanHas, AnchorFits, PlannedRow, KeyFor, StemFrom;
    AnchorIsPlanned(marks, keys, post, anchor);
    KeyForIs(marks, keys, post, anchor, action, revision);
    var planned, mark := PlannedRow(marks, post, action), Mark(Some(post), action, revision);
    plain := planned.Some?;
    if plain {
      p := planned.value;
      assert marks[p] in marks;
    } else {
      p := anchor.value;
      UnplannedHasNoNode(marks, keys, mark);
    }
  }

  lemma KeyForIs(marks: seq<Mark>, keys: seq<NodeKey>, post: PostRef, anchor: Option<nat>, action: Action, revision: nat)
    requires |keys| == |marks|
    ensures var planned, mark := PlannedRow(marks, post, action), Mark(Some(post), action, revision);
      KeyFor(marks, keys, post, anchor, action, revision)
      == StemFrom(if planned.Some? then keys[planned.value] else if anchor.Some? && anchor.value < |keys| then keys[anchor.value] else post,
                  mark, planned.Some?) + Suffix(revision)
  {
    hide Suffix, Name, PlannedRow;
  }

  lemma UnplannedHasNoNode(marks: seq<Mark>, keys: seq<NodeKey>, mark: Mark)
    requires |keys| == |marks| && Mark(mark.post, mark.action, 0) !in marks
    ensures !PlanHas(marks, keys, mark)
  {}

  lemma LeadIsPlanned(marks: seq<Mark>, keys: seq<NodeKey>, mark: Mark, key: NodeKey, post: PostRef) returns (q: nat)
    requires |keys| == |marks| && LeadIs(marks, keys, mark, key) && mark.post == Some(post)
    ensures q < |marks| && PlannedFor(marks[q], post)
  {
    hide Lead, IsNodeId;
    q :| 0 <= q < |keys| && marks[q].post == mark.post && marks[q].revision == 0 && IsNodeId(keys[q]) && keys[q] == Lead(key);
  }

  lemma PostIsPlanned(marks: seq<Mark>, keys: seq<NodeKey>, post: PostRef) returns (q: nat)
    requires |keys| == |marks| && KeysFit(marks, keys) && HasRow(marks, post)
    ensures q < |marks| && PlannedFor(marks[q], post)
  {
    hide MadeFrom, LeadIs, IsNodeId, EndsInDigit, PlanHas, Once, AllDistinct;
    var t :| 0 <= t < |marks| && marks[t].post == Some(post);
    assert KeyFits(marks, keys, marks[t], keys[t]);
    q := LeadIsPlanned(marks, keys, marks[t], keys[t], post);
  }

  lemma AnchorIsPlanned(marks: seq<Mark>, keys: seq<NodeKey>, post: PostRef, anchor: Option<nat>)
    requires |keys| == |marks| && KeysFit(marks, keys) && HasRow(marks, post) && AnchorFits(marks, post, anchor)
    ensures anchor.Some? && anchor.value < |marks| && PlannedFor(marks[anchor.value], post)
  {
    hide KeysFit, HasRow;
    var q := PostIsPlanned(marks, keys, post);
  }

  ghost predicate DistinctActions(actions: seq<Action>) {
    forall j, k :: 0 <= j < k < |actions| ==> actions[j] != actions[k]
  }

  lemma {:induction false} LastStaysLast(order: seq<Action>, enabled: set<Action>)
    requires order != [] && order[|order| - 1] in enabled
    ensures var actions := Enabled(order, enabled); actions != [] && actions[|actions| - 1] == order[|order| - 1]
  {
    if |order| > 1 {
      LastStaysLast(order[1..], enabled);
    }
  }

  /** A revision redoes no action twice, whatever the pipeline has. */
  lemma RevisionActionsDiffer(target: Target, enabled: set<Action>)
    ensures DistinctActions(RevisionActions(target, enabled))
  {
    var effective := if target == Visual && Direct !in enabled then Copy else target;
    var order := RedoByTarget(effective);
    EnabledDistinct(order, enabled);
    if Qa in enabled {
      LastStaysLast(order, enabled);
    }
  }

  lemma {:induction false} ChainFits(marks: seq<Mark>, keys: seq<NodeKey>, post: PostRef, anchor: Option<nat>, actions: seq<Action>,
                                     revision: nat, k: nat)
    requires |keys| == |marks| && KeysFit(marks, keys) && AnchorFits(marks, post, anchor) && HasRow(marks, post) && revision > 0
    requires DistinctActions(actions) && k <= |actions|
    requires forall m :: m in marks && m.post == Some(post) ==> m.revision < revision
    ensures KeysFit(marks + ChainMarks(post, actions, revision)[..k], keys + ChainKeys(marks, keys, post, anchor, actions, revision)[..k])
  {
    hide KeysFit, KeyFor, MadeFrom, PlanHas, HasRow, AnchorFits;
    var rows, more := ChainMarks(post, actions, revision), ChainKeys(marks, keys, post, anchor, actions, revision);
    if k == 0 {
      assert marks + rows[..0] == marks && keys + more[..0] == keys;
    } else {
      ChainFits(marks, keys, post, anchor, actions, revision, k - 1);
      var marks', keys' := marks + rows[..k - 1], keys + more[..k - 1];
      var p, plain := KeyForIsMade(marks, keys, post, anchor, actions[k - 1], revision);
      assert marks'[p] == marks[p] && keys'[p] == keys[p];
      ChainIsNoPlan(marks, keys, rows[..k - 1], more[..k - 1], rows[k - 1]);
      OneMoreFits(marks', keys', p, rows[k - 1], more[k - 1], plain);
      assert marks' + [rows[k - 1]] == marks + rows[..k] && keys' + [more[k - 1]] == keys + more[..k];
    }
  }

  /** Rows of a later revision are no plan's. */
  lemma ChainIsNoPlan(marks: seq<Mark>, keys: seq<NodeKey>, rows: seq<Mark>, more: seq<NodeKey>, mark: Mark)
    requires |keys| == |marks| && |more| == |rows| && forall m :: m in rows ==> m.revision > 0
    ensures PlanHas(marks + rows, keys + more, mark) ==> PlanHas(marks, keys, mark)
  {
    if PlanHas(marks + rows, keys + more, mark) {
      var i :| 0 <= i < |keys + more| && (marks + rows)[i] == Mark(mark.post, mark.action, 0) && IsNodeId((keys + more)[i]);
      assert forall k :: |keys| <= k < |keys + more| ==> (marks + rows)[k] in rows;
    }
  }

  lemma RevisionKeepsBook(b: Book, post: PostRef, target: Target, enabled: set<Action>, fromQa: bool, anchor: Option<nat>)
    requires BookFits(b) && Possible(b, SRevise(post, target, enabled, fromQa, anchor))
    ensures BookFits(RevisePost(b, post, target, enabled, fromQa, anchor))
  {
    hide KeysFit, RevisionActions, HasRow, AnchorFits;
    var marks := MarksOf(b.g.tasks);
    if post in b.revisions && HasRow(marks, post) {
      var revision, actions := b.revisions[post] + 1, RevisionActions(target, enabled);
      RevisionActionsDiffer(target, enabled);
      ChainFits(marks, b.keys, post, anchor, actions, revision, |actions|);
      var after := RevisePost(b, post, target, enabled, fromQa, anchor);
      var rows, more := ChainMarks(post, actions, revision), ChainKeys(marks, b.keys, post, anchor, actions, revision);
      assert rows[..|actions|] == rows && more[..|actions|] == more;
      assert MarksOf(after.g.tasks) == marks + rows;
    }
  }

  lemma FinishKeepsBook(b: Book, w: TaskId, gaps: bool, anchor: Option<nat>)
    requires BookFits(b) && Possible(b, Step.SFinish(w, gaps, anchor))
    ensures BookFits(FinishWriteIn(b, w, gaps, anchor))
  {
    hide KeysFit;
    var marks, after := MarksOf(b.g.tasks), FinishWriteIn(b, w, gaps, anchor);
    if CanMove(b.g.tasks, w, Succeed) {
      var write := b.g.tasks[w];
      if gaps && write.post.Some? && !HasDirect(b.g.tasks, w) {
        assert marks[w].post == write.post;
        var more := Mark(write.post, Direct, write.revision);
        assert more !in marks;
        var p, plain := KeyForIsMade(marks, b.keys, write.post.value, anchor, Direct, write.revision);
        hide KeyFor, MadeFrom, PlanHas;
        OneMoreFits(marks, b.keys, p, more, KeyFor(marks, b.keys, write.post.value, anchor, Direct, write.revision), plain);
        assert MarksOf(after.g.tasks) == marks + [more];
      } else {
        assert MarksOf(after.g.tasks) == marks && after.keys == b.keys;
      }
    }
  }

  lemma SameMarks(g: Graph, step: LiveGraph.Step)
    requires !step.SFinishWrite? && !step.SAppend?
    ensures MarksOf(LiveGraph.Next(g, step).tasks) == MarksOf(g.tasks)
  {
    hide Ready;
  }

  lemma StepKeepsBook(b: Book, step: Step)
    requires BookFits(b) && Possible(b, step)
    ensures BookFits(Next(b, step))
  {
    hide KeysFit, LiveGraph.Next, MarksOf, RevisePost, FinishWriteIn, AnchorFits;
    match step
    case SGraph(graphStep) =>
      if !graphStep.SFinishWrite? && !graphStep.SAppend? {
        SameMarks(b.g, graphStep);
      }
    case SFinish(w, gaps, anchor) => FinishKeepsBook(b, w, gaps, anchor);
    case SRevise(post, target, enabled, fromQa, anchor) => RevisionKeepsBook(b, post, target, enabled, fromQa, anchor);
  }

  function Exec(b: Book, steps: seq<Step>): (after: Book)
    requires |b.keys| == |b.g.tasks|
    ensures |after.keys| == |after.g.tasks|
    decreases |steps|
  {
    if steps == [] then b else Exec(Next(b, steps[0]), steps[1..])
  }

  ghost predicate AllPossible(b: Book, steps: seq<Step>)
    requires |b.keys| == |b.g.tasks|
    decreases |steps|
  {
    steps == [] || (Possible(b, steps[0]) && AllPossible(Next(b, steps[0]), steps[1..]))
  }

  lemma {:induction false} ExecKeepsBook(b: Book, steps: seq<Step>)
    requires BookFits(b) && AllPossible(b, steps)
    ensures BookFits(Exec(b, steps))
    decreases |steps|
  {
    hide Next, KeysFit, Counted;
    if steps != [] {
      StepKeepsBook(b, steps[0]);
      ExecKeepsBook(Next(b, steps[0]), steps[1..]);
    }
  }

  // ---------------------------------------------------------------- from the plan on

  /** The rows createGraphRows makes of an approved plan. */
  function Planned(tasks: seq<PlanTasks.Task>, refs: seq<PostRef>): Book {
    Book(Graph(RevisionStart.Rows(tasks), {}),
         seq(|tasks|, t requires 0 <= t < |tasks| => tasks[t].nodeKey),
         map post | post in refs :: 0)
  }

  lemma PlannedFits(nodes: seq<Node>, refs: seq<PostRef>, enabled: set<Action>, ordered: seq<Node>, tasks: seq<PlanTasks.Task>)
    requires Accepted(nodes, refs, enabled) && multiset(ordered) == multiset(nodes) && PlanTasks.Instantiates(tasks, ordered)
    requires forall n :: n in nodes ==> IsNodeId(n.id)
    ensures BookFits(Planned(tasks, refs))
  {
    hide Accepted, Shaped, IsNodeId, KeyFits, Wanted;
    AcceptedIsShaped(nodes, refs, enabled);
    ShapedIds(nodes, refs, enabled);
    RevisionStart.SameNodes(nodes, ordered);
    var b := Planned(tasks, refs);
    var marks, keys := MarksOf(b.g.tasks), b.keys;
    forall t | 0 <= t < |keys|
      ensures KeyFits(marks, keys, marks[t], keys[t])
      ensures marks[t].post.Some? ==> marks[t].post.value in refs
    {
      assert ordered[t] in nodes && keys[t] == ordered[t].id;
      NodeIdFits(marks, keys, t);
      RevisionStart.OrderedWanted(nodes, ordered, refs, enabled, t);
      WantedPostIsPlanned(KeyOf(ordered[t]), refs, enabled);
    }
    forall t, u | 0 <= t < u < |keys| ensures marks[t] != marks[u] {
      RevisionStart.OrderedKeys(nodes, ordered, refs, enabled, t, u);
    }
  }

  lemma NodeIdFits(marks: seq<Mark>, keys: seq<NodeKey>, t: nat)
    requires |keys| == |marks| && t < |keys| && IsNodeId(keys[t]) && marks[t].revision == 0
    ensures KeyFits(marks, keys, marks[t], keys[t])
  {
    NodeIdLead(keys[t]);
  }

  lemma WantedPostIsPlanned(key: Key, refs: seq<PostRef>, enabled: set<Action>)
    requires Wanted(key, refs, enabled)
    ensures key.postRef.Some? ==> key.postRef.value in refs
  {}

  /** baseNodeId: the text before the first point. */
  function BaseNodeId(key: NodeKey): string {
    if key == "" || key[0] == '.' then "" else [key[0]] + BaseNodeId(key[1..])
  }

  lemma {:induction false} BaseOf(stem: string, rest: string)
    requires '.' !in stem && (rest != "" ==> rest[0] == '.')
    ensures BaseNodeId(stem + rest) == stem
  {
    if stem == "" {
      assert stem + rest == rest;
    } else {
      assert (stem + rest)[1..] == stem[1..] + rest;
      BaseOf(stem[1..], rest);
    }
  }

  /** A task whose post and action the plan has a node for reads that node's instructions. */
  lemma FindsItsNode(marks: seq<Mark>, keys: seq<NodeKey>, t: nat, p: nat)
    requires KeysFit(marks, keys) && t < |keys| && p < |keys| && marks[t].post.Some?
    requires marks[p] == Mark(marks[t].post, marks[t].action, 0) && IsNodeId(keys[p])
    ensures BaseNodeId(keys[t]) == keys[p]
  {
    hide Lead, BaseNodeId, EndsInDigit, LeadIs, IsNodeId;
    assert KeyFits(marks, keys, marks[t], keys[t]);
    NodeIdsArePlain(keys[p]);
    if IsNodeId(keys[t]) {
      assert marks[t] == marks[p];
      BaseOf(keys[p], "");
      assert keys[p] + "" == keys[p];
    } else {
      assert PlanHas(marks, keys, marks[t]);
      var q, plain :| 0 <= q < |keys| && MadeFrom(marks[q], keys[q], marks[t], keys[t], plain) && (plain || !PlanHas(marks, keys, marks[t]));
      assert marks[q] == marks[p];
      BaseOf(keys[p], Suffix(marks[t].revision));
    }
  }

  /** From an accepted plan on, whatever is revised, spliced in or runs meanwhile: no two tasks of the
      graph share a node key, and each whose post and action the plan has a node for finds that node. */
  lemma NodeKeysAreUnique(nodes: seq<Node>, refs: seq<PostRef>, enabled: set<Action>, ordered: seq<Node>, tasks: seq<PlanTasks.Task>,
                          steps: seq<Step>)
    requires Accepted(nodes, refs, enabled) && multiset(ordered) == multiset(nodes) && PlanTasks.Instantiates(tasks, ordered)
    requires forall n :: n in nodes ==> IsNodeId(n.id)
    requires AllPossible(Planned(tasks, refs), steps)
    ensures var end := Exec(Planned(tasks, refs), steps);
      && AllDistinct(end.keys)
      && forall t, p :: 0 <= t < |end.keys| && 0 <= p < |end.keys| && IsNodeId(end.keys[p])
           && end.g.tasks[t].post.Some? && end.g.tasks[p].post == end.g.tasks[t].post && end.g.tasks[p].action == end.g.tasks[t].action
           ==> BaseNodeId(end.keys[t]) == end.keys[p]
  {
    hide Accepted, Exec, IsNodeId, Planned, Counted;
    PlannedFits(nodes, refs, enabled, ordered, tasks);
    ExecKeepsBook(Planned(tasks, refs), steps);
    var end := Exec(Planned(tasks, refs), steps);
    var marks := MarksOf(end.g.tasks);
    hide KeyFits;
    forall t, p | 0 <= t < |end.keys| && 0 <= p < |end.keys| && IsNodeId(end.keys[p])
      && end.g.tasks[t].post.Some? && end.g.tasks[p].post == end.g.tasks[t].post && end.g.tasks[p].action == end.g.tasks[t].action
      ensures BaseNodeId(end.keys[t]) == end.keys[p]
    {
      NodeIdIsPlanned(marks, end.keys, p);
      FindsItsNode(marks, end.keys, t, p);
    }
  }

  lemma NodeIdIsPlanned(marks: seq<Mark>, keys: seq<NodeKey>, p: nat)
    requires KeysFit(marks, keys) && p < |keys| && IsNodeId(keys[p])
    ensures marks[p].revision == 0
  {
    assert KeyFits(marks, keys, marks[p], keys[p]);
  }
}
