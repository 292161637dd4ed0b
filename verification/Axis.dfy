/**
 * The axis decisions of a layer (`AxisDecisions`, crates/xeibe-arrow/src/axis.rs:71-82,
 * 166-221): every worker has copies of its own, one a source, with a cache each; the
 * decisions and what is known of each source are shared, and the latter changes while
 * the read runs. A copy holds its own cache's lock through a lookup, so a lookup that
 * misses it is two steps: the shared decisions, then the cache.
 */
module Axis {
  import opened Basics

  datatype Key<D> = Key(source: nat, srsName: Option<string>, dialect: D)

  datatype Entry<D, A> = Entry(srsName: Option<string>, dialect: D, decision: A)

  /** What all copies share and nobody changes. `E` is evidence, `C` a context, `A` a decision. */
  datatype Settings<!D(==), !E, !C, !A> = Settings(
    evidence: map<Key<D>, E>,
    noEvidence: E,
    noContext: C,
    decide: (Key<D>, E, C) -> A)
  {
    function ContextOf(contexts: seq<C>, source: nat): C {
      if source < |contexts| then contexts[source] else noContext
    }

    /** What is decided for a key nobody has decided, with what is known by now. */
    function Decided(key: Key<D>, contexts: seq<C>): A {
      decide(key, if key in evidence then evidence[key] else noEvidence, ContextOf(contexts, key.source))
    }
  }

  /** The first entry of a cache for a srsName and dialect. */
  function Find<D(==), A>(local: seq<Entry<D, A>>, srsName: Option<string>, dialect: D): (found: Option<A>)
    ensures found.Some? ==> Entry(srsName, dialect, found.value) in local
    ensures found.None? ==> forall entry :: entry in local ==> !(entry.srsName == srsName && entry.dialect == dialect)
  {
    if local == [] then None
    else if local[0].srsName == srsName && local[0].dialect == dialect then Some(local[0].decision)
    else Find(local[1..], srsName, dialect)
  }

  // ---- the copies at work, in any interleaving ------------------------------------------------

  datatype Pc<D, A> =
    | Free
    | Missed(srsName: Option<string>, dialect: D)
    | Knows(srsName: Option<string>, dialect: D, decision: A)

  datatype Copy<D, A> = Copy(source: nat, local: seq<Entry<D, A>>, pc: Pc<D, A>)

  datatype Answer<D, A> = Answer(key: Key<D>, decision: A)

  datatype State<D(==), C, A> = State(
    contexts: seq<C>,
    decisions: map<Key<D>, A>,
    copies: seq<Copy<D, A>>,
    answers: seq<Answer<D, A>>)

  datatype Event<D, C> =
    | SourceOpened(source: nat, context: C)
    | ForSource(source: nat)
    | Asks(copy: nat, srsName: Option<string>, dialect: D)
    | LooksUp(copy: nat)
    | Caches(copy: nat)

  predicate Enabled<D, C, A>(s: State<D, C, A>, event: Event<D, C>) {
    match event
    case SourceOpened(_, _) => true
    case ForSource(_) => true
    case Asks(i, _, _) => i < |s.copies| && s.copies[i].pc.Free?
    case LooksUp(i) => i < |s.copies| && s.copies[i].pc.Missed?
    case Caches(i) => i < |s.copies| && s.copies[i].pc.Knows?
  }

  function Resized<C>(contexts: seq<C>, size: nat, fill: C): seq<C> {
    if |contexts| < size then contexts + seq(size - |contexts|, _ => fill) else contexts
  }

  function Step<D(==), E, C, A>(g: Settings<D, E, C, A>, s: State<D, C, A>, event: Event<D, C>): State<D, C, A>
    requires Enabled(s, event)
  {
    match event
    case SourceOpened(source, context) =>
      s.(contexts := Resized(s.contexts, source + 1, g.noContext)[source := context])
    case ForSource(source) => s.(copies := s.copies + [Copy(source, [], Free)])
    case Asks(i, srsName, dialect) => Ask(s, i, srsName, dialect)
    case LooksUp(i) => LookUp(g, s, i)
    case Caches(i) => Cache(s, i)
  }

  function Ask<D(==), C, A>(s: State<D, C, A>, i: nat, srsName: Option<string>, dialect: D): State<D, C, A>
    requires i < |s.copies|
  {
    var c := s.copies[i];
    match Find(c.local, srsName, dialect)
    case Some(decision) => s.(answers := s.answers + [Answer(Key(c.source, srsName, dialect), decision)])
    case None => s.(copies := s.copies[i := c.(pc := Missed(srsName, dialect))])
  }

  function LookUp<D(==), E, C, A>(g: Settings<D, E, C, A>, s: State<D, C, A>, i: nat): State<D, C, A>
    requires i < |s.copies| && s.copies[i].pc.Missed?
  {
    var c := s.copies[i];
    var key := Key(c.source, c.pc.srsName, c.pc.dialect);
    var decision := if key in s.decisions then s.decisions[key] else g.Decided(key, s.contexts);
    s.(decisions := s.decisions[key := decision],
       copies := s.copies[i := c.(pc := Knows(c.pc.srsName, c.pc.dialect, decision))])
  }

  function Cache<D, C, A>(s: State<D, C, A>, i: nat): State<D, C, A>
    requires i < |s.copies| && s.copies[i].pc.Knows?
  {
    var c := s.copies[i];
    var entry := Entry(c.pc.srsName, c.pc.dialect, c.pc.decision);
    s.(copies := s.copies[i := c.(local := c.local + [entry], pc := Free)],
       answers := s.answers + [Answer(Key(c.source, entry.srsName, entry.dialect), entry.decision)])
  }

  ghost predicate Run<D(!new), E, C(!new), A(!new)>(g: Settings<D, E, C, A>, run: seq<State<D, C, A>>,
                        events: seq<Event<D, C>>)
  {
    && |run| == |events| + 1
    && (exists contexts :: run[0] == State(contexts, map[], [], []))
    && forall n :: 0 <= n < |events| ==> Enabled(run[n], events[n]) && run[n + 1] == Step(g, run[n], events[n])
  }

  // ---- a cache holds nothing but shared decisions ----------------------------------------------

  ghost predicate Known<D, A>(decisions: map<Key<D>, A>, key: Key<D>, decision: A) {
    key in decisions && decisions[key] == decision
  }

  ghost predicate CopyKnown<D, A>(decisions: map<Key<D>, A>, c: Copy<D, A>) {
    && (forall k :: 0 <= k < |c.local| ==>
          Known(decisions, Key(c.source, c.local[k].srsName, c.local[k].dialect), c.local[k].decision))
    && (c.pc.Knows? ==> Known(decisions, Key(c.source, c.pc.srsName, c.pc.dialect), c.pc.decision))
  }

  ghost predicate AllKnown<D, C, A>(s: State<D, C, A>) {
    && (forall i :: 0 <= i < |s.copies| ==> CopyKnown(s.decisions, s.copies[i]))
    && (forall n :: 0 <= n < |s.answers| ==> Known(s.decisions, s.answers[n].key, s.answers[n].decision))
  }

  /** No decision is ever replaced. */
  ghost predicate Kept<D(!new), A>(before: map<Key<D>, A>, after: map<Key<D>, A>) {
    forall key :: key in before ==> key in after && after[key] == before[key]
  }

  lemma StaysKnown<D(!new), A(!new)>(before: map<Key<D>, A>, after: map<Key<D>, A>, c: Copy<D, A>)
    requires Kept(before, after) && CopyKnown(before, c)
    ensures CopyKnown(after, c)
  {
  }

  lemma AskKept<D(!new), C, A(!new)>(s: State<D, C, A>, i: nat, srsName: Option<string>, dialect: D)
    requires AllKnown(s) && i < |s.copies| && s.copies[i].pc.Free?
    ensures AllKnown(Ask(s, i, srsName, dialect))
  {
    var c := s.copies[i];
    var found := Find(c.local, srsName, dialect);
    assert CopyKnown(s.decisions, c);
    if found.Some? {
      var k :| 0 <= k < |c.local| && c.local[k] == Entry(srsName, dialect, found.value);
      assert Known(s.decisions, Key(c.source, c.local[k].srsName, c.local[k].dialect), found.value);
    }
  }

  lemma LookUpKept<D(!new), E, C, A(!new)>(g: Settings<D, E, C, A>, s: State<D, C, A>, i: nat)
    requires AllKnown(s) && i < |s.copies| && s.copies[i].pc.Missed?
    ensures AllKnown(LookUp(g, s, i)) && Kept(s.decisions, LookUp(g, s, i).decisions)
  {
    var t := LookUp(g, s, i);
    assert CopyKnown(s.decisions, s.copies[i]);
    forall j | 0 <= j < |t.copies|
      ensures CopyKnown(t.decisions, t.copies[j])
    {
      if j != i {
        StaysKnown(s.decisions, t.decisions, s.copies[j]);
      }
    }
  }

  lemma CacheKept<D(!new), C, A(!new)>(s: State<D, C, A>, i: nat)
    requires AllKnown(s) && i < |s.copies| && s.copies[i].pc.Knows?
    ensures AllKnown(Cache(s, i))
  {
    assert CopyKnown(s.decisions, s.copies[i]);
  }

  /** Every step keeps the caches inside the shared decisions, and every shared decision. */
  lemma StepKept<D(!new), E, C, A(!new)>(g: Settings<D, E, C, A>, s: State<D, C, A>, event: Event<D, C>)
    requires AllKnown(s) && Enabled(s, event)
    ensures AllKnown(Step(g, s, event)) && Kept(s.decisions, Step(g, s, event).decisions)
  {
    match event
    case SourceOpened(_, _) =>
    case ForSource(_) =>
    case Asks(i, srsName, dialect) => AskKept(s, i, srsName, dialect);
    case LooksUp(i) => LookUpKept(g, s, i);
    case Caches(i) => CacheKept(s, i);
  }

  lemma {:induction false} RunKept<D(!new), E, C(!new), A(!new)>(
    g: Settings<D, E, C, A>, run: seq<State<D, C, A>>, events: seq<Event<D, C>>, earlier: nat, now: nat)
    requires Run(g, run, events) && earlier <= now < |run|
    ensures AllKnown(run[now]) && Kept(run[earlier].decisions, run[now].decisions)
    decreases now
  {
    if now > 0 {
      RunKept(g, run, events, Min(earlier, now - 1), now - 1);
      assert run[now] == Step(g, run[now - 1], events[now - 1]);
      StepKept(g, run[now - 1], events[now - 1]);
    }
  }

  /** A new key is decided with what is known of its source at that very step. */
  lemma DecidedThen<D(!new), E, C, A(!new)>(g: Settings<D, E, C, A>, s: State<D, C, A>, event: Event<D, C>, key: Key<D>)
    requires Enabled(s, event) && key !in s.decisions && key in Step(g, s, event).decisions
    ensures Step(g, s, event).decisions[key] == g.Decided(key, s.contexts)
  {
  }

  /** The context that the source was last opened with in the first events, or else the one it had at first. */
  ghost function LatestContext<D, C>(initial: seq<C>, noContext: C, events: seq<Event<D, C>>, n: nat, source: nat): C
    requires n <= |events|
  {
    if n == 0 then (if source < |initial| then initial[source] else noContext)
    else
      match events[n - 1]
      case SourceOpened(which, context) =>
        if which == source then context else LatestContext(initial, noContext, events, n - 1, source)
      case _ => LatestContext(initial, noContext, events, n - 1, source)
  }

  lemma {:induction false} OpenedContext<D, E, C, A>(g: Settings<D, E, C, A>, contexts: seq<C>, which: nat,
                                                         context: C, source: nat)
    ensures g.ContextOf(Resized(contexts, which + 1, g.noContext)[which := context], source)
            == if source == which then context else g.ContextOf(contexts, source)
  {
  }

  /** However the list of contexts grows, each source has its own latest one. */
  lemma {:induction false} ContextIsLatest<D(!new), E, C(!new), A(!new)>(
    g: Settings<D, E, C, A>, run: seq<State<D, C, A>>, events: seq<Event<D, C>>, n: nat, source: nat)
    requires Run(g, run, events) && n < |run|
    ensures g.ContextOf(run[n].contexts, source)
            == LatestContext(run[0].contexts, g.noContext, events, n, source)
  {
    if n > 0 {
      ContextIsLatest(g, run, events, n - 1, source);
      assert run[n] == Step(g, run[n - 1], events[n - 1]);
      if events[n - 1].SourceOpened? {
        OpenedContext(g, run[n - 1].contexts, events[n - 1].source, events[n - 1].context, source);
      }
    }
  }

  /**
   * Over every run: once a key is decided, by whichever copy and with whatever was then
   * known of its source, that decision is what every lookup of the key returns, by every
   * copy, then and ever after, however the contexts change.
   */
  lemma EveryAnswerIsTheFirst<D(!new), E, C(!new), A(!new)>(
    g: Settings<D, E, C, A>, run: seq<State<D, C, A>>, events: seq<Event<D, C>>,
    first: nat, key: Key<D>, now: nat, n: nat)
    requires Run(g, run, events) && first < |events| && now < |run|
    requires key !in run[first].decisions && key in run[first + 1].decisions
    requires n < |run[now].answers| && run[now].answers[n].key == key
    ensures run[now].answers[n].decision
            == g.decide(key, if key in g.evidence then g.evidence[key] else g.noEvidence,
                        LatestContext(run[0].contexts, g.noContext, events, first, key.source))
  {
    ContextIsLatest(g, run, events, first, key.source);
    RunKept(g, run, events, now, now);
    assert Known(run[now].decisions, run[now].answers[n].key, run[now].answers[n].decision);
    if now <= first {
      RunKept(g, run, events, now, first);
      assert false;
    }
    RunKept(g, run, events, first + 1, now);
    assert run[first + 1] == Step(g, run[first], events[first]);
    DecidedThen(g, run[first], events[first], key);
  }

  /** Two lookups of one key never differ. */
  lemma OneDecisionPerKey<D(!new), E, C(!new), A(!new)>(
    g: Settings<D, E, C, A>, run: seq<State<D, C, A>>, events: seq<Event<D, C>>, now: nat, m: nat, n: nat)
    requires Run(g, run, events) && now < |run|
    requires m < |run[now].answers| && n < |run[now].answers| && run[now].answers[m].key == run[now].answers[n].key
    ensures run[now].answers[m].decision == run[now].answers[n].decision
  {
    RunKept(g, run, events, now, now);
    assert Known(run[now].decisions, run[now].answers[m].key, run[now].answers[m].decision);
    assert Known(run[now].decisions, run[now].answers[n].key, run[now].answers[n].decision);
  }

  // ---- the object ------------------------------------------------------------------------------

  class Shared<D(==), C, A> {
    var contexts: seq<C>
    var decisions: map<Key<D>, A>

    constructor (contexts: seq<C>)
      ensures this.contexts == contexts && decisions == map[]
    {
      this.contexts, decisions := contexts, map[];
    }
  }

  class AxisDecisions<D(==), E, C, A> {
    const settings: Settings<D, E, C, A>
    const shared: Shared<D, C, A>
    const source: nat
    var local: seq<Entry<D, A>>

    ghost predicate Valid()
      reads this, shared
    {
      CopyKnown(shared.decisions, Copy(source, local, Free))
    }

    constructor (settings: Settings<D, E, C, A>, shared: Shared<D, C, A>, source: nat)
      ensures Valid() && this.settings == settings && this.shared == shared && this.source == source
    {
      this.settings, this.shared, this.source, this.local := settings, shared, source, [];
    }

    /** `for_source`: a copy with a cache of its own. */
    method ForSource(source: nat) returns (other: AxisDecisions<D, E, C, A>)
      ensures fresh(other) && other.Valid()
      ensures other.settings == settings && other.shared == shared && other.source == source
    {
      other := new AxisDecisions(settings, shared, source);
    }

    /** `resolve`: the caches never show; the answer is what the shared decisions hold, or now hold. */
    method Resolve(srsName: Option<string>, dialect: D) returns (decision: A)
      requires Valid()
      modifies this`local, shared`decisions
      ensures Valid()
      ensures var key := Key(source, srsName, dialect);
              && decision == (if key in old(shared.decisions) then old(shared.decisions)[key]
                              else
                                settings.decide(
                                  key,
                                  if key in settings.evidence then settings.evidence[key] else settings.noEvidence,
                                  if source < |shared.contexts| then shared.contexts[source]
                                  else settings.noContext))
              && shared.decisions == old(shared.decisions)[key := decision]
    {
      var key := Key(source, srsName, dialect);
      match Find(local, srsName, dialect)
      case Some(found) =>
        ghost var k :| 0 <= k < |local| && local[k] == Entry(srsName, dialect, found);
        assert Known(shared.decisions, Key(source, local[k].srsName, local[k].dialect), found);
        return found;
      case None =>
      if key in shared.decisions {
        decision := shared.decisions[key];
      } else {
        decision := settings.Decided(key, shared.contexts);
        shared.decisions := shared.decisions[key := decision];
      }
      local := local + [Entry(srsName, dialect, decision)];
    }
  }
}
