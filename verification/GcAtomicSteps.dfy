// Snapshot lemmas for the atomic phase: remarking upvalues, moving whole lists,
// convergence of ephemeron tables, and clearing weak tables.

module GcAtomicSteps {
  import opened GcHeap
  import opened GcInvariants
  import opened GcState
  import opened GcSteps

  // --------------------------------------------------------------- remarkupvals

  // Every thread with open upvalues is in the list, or has none still flagged.
  ghost predicate Unflagged(u: Upvals, ids: seq<UvId>) {
    forall i :: 0 <= i < |ids| ==> ids[i] in u && u[ids[i]].Open? ==> !u[ids[i]].touched
  }

  ghost predicate FlagsInTwups(h: Heap, u: Upvals, twups: seq<Ref>) {
    forall th :: th in h && h[th].Thread? && h[th].openupval != [] ==> th in twups || Unflagged(u, h[th].openupval)
  }

  lemma UntouchBlack(s: St, id: UvId)
    requires BlackInv(s.heap, s.upv, s.color, Rule(s), s.loc, {}, s.stuck) && s.inside
    requires id in s.upv && s.upv[id].Open? && !In(Whites(s.color), UvValue(s.heap, s.upv, id))
    ensures BlackInv(s.heap, s.upv[id := s.upv[id].(touched := false)], s.color, Rule(s), s.loc, {}, s.stuck)
  {
    var u' := s.upv[id := s.upv[id].(touched := false)];
    forall r | r in s.heap && r in s.color && r !in s.stuck && s.color[r].Black?
      ensures BlackOk(s.heap, u', Whites(s.color), Rule(s), s.loc, {}, s.heap[r])
    {
      assert BlackOk(s.heap, s.upv, Whites(s.color), Rule(s), s.loc, {}, s.heap[r]);
      if s.heap[r].LClosure? {
        var ids := s.heap[r].upvals;
        forall i | 0 <= i < |ids| && ids[i].Some?
          ensures UvBlack(s.heap, u', Whites(s.color), Rule(s), s.loc, {}, ids[i].value)
        {
          assert UvBlack(s.heap, s.upv, Whites(s.color), Rule(s), s.loc, {}, ids[i].value);
        }
      }
    }
  }

  lemma UntouchInv(s: St, id: UvId)
    requires id in s.upv && s.upv[id].Open? && s.inside && !In(Whites(s.color), UvValue(s.heap, s.upv, id))
    requires MarkInv(s, {})
    ensures MarkInv(s.(upv := s.upv[id := s.upv[id].(touched := false)]), {})
  {
    hide MarkInv, BlackInv, Trim, SameUpvals, SameOutside, Rule, UvValue;
    var u' := s.upv[id := s.upv[id].(touched := false)];
    MarkInvBlack(s);
    UntouchBlack(s, id);
    Untouched(s.heap, s.upv, id);
    TrimInvGiven(s, s.heap, u', {});
  }

  lemma MarkInvBlack(s: St)
    requires MarkInv(s, {})
    ensures BlackInv(s.heap, s.upv, s.color, Rule(s), s.loc, {}, s.stuck)
  {}

  lemma Untouched(h: Heap, u: Upvals, id: UvId)
    requires id in u && u[id].Open?
    ensures Trim(h, h) && SameOutside(h, h, {}) && SameUpvals(u, u[id := u[id].(touched := false)])
  {}

  // 'remarkupvals' may take a thread off the list when it is white or has no upvalues.
  lemma UnlistTwups(s: St, p: nat)
    requires TwupsOk(s.heap, s.color, s.loc, s.twups, s.inside, s.remarked, {}) && p < |s.twups| && s.inside
    requires IsWhite(s.color, s.twups[p]) || OpenUpvals(s.heap, s.twups[p]) == []
    ensures TwupsOk(s.heap, s.color, s.loc, s.twups[..p] + s.twups[p + 1..], s.inside, s.remarked, {})
  {
    var t := s.twups[..p] + s.twups[p + 1..];
    assert forall th :: th in s.twups <==> th in t || th == s.twups[p];
  }

  lemma UnlistInv(s: St, p: nat)
    requires p < |s.twups| && s.inside
    requires IsWhite(s.color, s.twups[p]) || OpenUpvals(s.heap, s.twups[p]) == []
    requires MarkInv(s, {})
    ensures MarkInv(s.(twups := s.twups[..p] + s.twups[p + 1..]), {})
  {
    hide HeapWF, Exist, LocsOk, NoDead, FixedOk, TwupsOk, StuckOk, BlackInv, GrayInv, BoundClosed, MarkedWithin, ListIs, AllWeakIs;
    UnlistTwups(s, p);
  }

  lemma RemarkedBlack(s: St)
    requires HeapWF(s.heap, s.upv) && LocsOk(s.heap, s.color, s.loc) && StuckOk(s.heap, s.color, s.stuck)
    requires GrayInv(s.heap, s.color, s.inside, s.fixed, s.loc, {}, s.stuck) && FlagsInTwups(s.heap, s.upv, s.twups)
    requires forall th :: th in s.twups ==> !IsWhite(s.color, th)
    requires BlackInv(s.heap, s.upv, s.color, Rule(s), s.loc, {}, s.stuck) && s.inside
    ensures BlackInv(s.heap, s.upv, s.color, Remarked, s.loc, {}, s.stuck)
  {
    forall r | r in s.heap && r in s.color && r !in s.stuck && s.color[r].Black?
      ensures BlackOk(s.heap, s.upv, Whites(s.color), Remarked, s.loc, {}, s.heap[r])
    {
      assert BlackOk(s.heap, s.upv, Whites(s.color), Rule(s), s.loc, {}, s.heap[r]);
      if s.heap[r].LClosure? {
        var ids := s.heap[r].upvals;
        forall i | 0 <= i < |ids| && ids[i].Some?
          ensures UvBlack(s.heap, s.upv, Whites(s.color), Remarked, s.loc, {}, ids[i].value)
        {
          RemarkedUpval(s, ids[i].value);
        }
      }
    }
  }

  lemma RemarkedUpval(s: St, id: UvId)
    requires HeapWF(s.heap, s.upv) && LocsOk(s.heap, s.color, s.loc) && StuckOk(s.heap, s.color, s.stuck)
    requires GrayInv(s.heap, s.color, s.inside, s.fixed, s.loc, {}, s.stuck) && FlagsInTwups(s.heap, s.upv, s.twups)
    requires forall th :: th in s.twups ==> !IsWhite(s.color, th)
    requires BlackInv(s.heap, s.upv, s.color, Rule(s), s.loc, {}, s.stuck)
    requires UvBlack(s.heap, s.upv, Whites(s.color), Rule(s), s.loc, {}, id)
    ensures UvBlack(s.heap, s.upv, Whites(s.color), Remarked, s.loc, {}, id)
  {
    if id in s.upv && s.upv[id].Open? && s.upv[id].touched {
      var th := s.upv[id].thread;
      assert UvWF(s.heap, id, s.upv[id]);
      var i :| 0 <= i < |s.heap[th].openupval| && s.heap[th].openupval[i] == id;
      assert th in s.twups;
      assert th in s.color && th in s.loc && !s.color[th].White?;
      assert s.color[th].Black? ==> BlackOk(s.heap, s.upv, Whites(s.color), Rule(s), s.loc, {}, s.heap[th]);
      assert GrayOk(Whites(s.color), s.inside, s.fixed, s.loc[th], th, s.heap[th]);
    }
  }

  lemma RemarkedInv(s: St)
    requires FlagsInTwups(s.heap, s.upv, s.twups) && s.inside
    requires forall th :: th in s.twups ==> !IsWhite(s.color, th)
    requires MarkInv(s, {})
    ensures MarkInv(s.(remarked := true), {})
  {
    hide HeapWF, Exist, LocsOk, NoDead, FixedOk, StuckOk, BlackInv, GrayInv, BoundClosed, MarkedWithin, ListIs, AllWeakIs;
    RemarkedBlack(s);
  }

  // ------------------------------------------------------------ moving whole lists

  function Relabel(loc: Locs, l: Loc, l': Loc): Locs {
    map r | r in loc :: if loc[r] == l then l' else loc[r]
  }

  lemma RelabelMoves(loc: Locs, l: Loc, l': Loc, xs: seq<Ref>)
    requires ListIs(loc, l, xs) && ListIs(loc, l', []) && l != l'
    ensures ListIs(Relabel(loc, l, l'), l', xs) && ListIs(Relabel(loc, l, l'), l, [])
  {
    var loc' := Relabel(loc, l, l');
    assert forall r :: r in loc && loc[r] == l' ==> false;
    forall r | r in loc' && loc'[r] == l' ensures r in xs { assert loc[r] == l; }
    assert forall r :: r in loc' ==> loc'[r] != l;
  }

  lemma RelabelKeeps(loc: Locs, l: Loc, l': Loc, m: Loc, xs: seq<Ref>)
    requires ListIs(loc, m, xs) && m != l && m != l'
    ensures ListIs(Relabel(loc, l, l'), m, xs)
  {
    var loc' := Relabel(loc, l, l');
    forall r | r in loc' && loc'[r] == m ensures r in xs { assert loc[r] == m; }
  }

  // g->gray = grayagain, when the gray list is empty.
  function AgainToGray(s: St): St {
    s.(gray := s.again, again := [], loc := Relabel(s.loc, AgainL, GrayL))
  }

  lemma MergedRelabel(loc: Locs, l: Loc, l': Loc)
    requires l != AllWeakL && l != ClearL && l' != AllWeakL && l' != ClearL
    ensures Merged(Relabel(loc, l, l')) == Relabel(Merged(loc), l, l')
  {}

  lemma AgainToGrayLists(s: St)
    requires Lists(s) && s.gray == []
    ensures Lists(AgainToGray(s))
  {
    hide ListIs, Relabel, Merged;
    RelabelMoves(s.loc, AgainL, GrayL, s.again);
    RelabelKeeps(s.loc, AgainL, GrayL, WeakL, s.weak);
    RelabelKeeps(s.loc, AgainL, GrayL, EphL, s.ephemeron);
    RelabelKeeps(Merged(s.loc), AgainL, GrayL, AllWeakL, s.allweak);
    MergedRelabel(s.loc, AgainL, GrayL);
    RelabelKeeps(s.loc, AgainL, GrayL, WorkL, s.work);
  }

  lemma AgainToGrayAccounted(s: St)
    requires LocsOk(s.heap, s.color, s.loc)
    ensures Accounted(s, AgainToGray(s), {}, {}) && SameObjects(s, AgainToGray(s))
    ensures LocsOk(s.heap, s.color, AgainToGray(s).loc)
  {}

  lemma AgainToGrayInv(s: St)
    requires s.gray == [] && MarkInv(s, {})
    ensures MarkInv(AgainToGray(s), {})
  {
    hide HeapWF, Exist, NoDead, FixedOk, TwupsOk, StuckOk, BlackInv, GrayInv, BoundClosed, MarkedWithin, ListIs, AllWeakIs;
    AgainToGrayLists(s);
    AgainToGrayAccounted(s);
    hide Lists, LocsOk, Accounted, Relabel;
    RecolorInv(s, AgainToGray(s), {}, {});
  }

  // Starting a round of convergence: the ephemeron list is detached.
  function EphToWork(s: St): St {
    s.(work := s.ephemeron, ephemeron := [], loc := Relabel(s.loc, EphL, WorkL))
  }

  lemma EphToWorkLists(s: St)
    requires Lists(s) && s.work == [] && s.inside
    ensures Lists(EphToWork(s))
  {
    hide ListIs, Relabel, Merged;
    RelabelMoves(s.loc, EphL, WorkL, s.ephemeron);
    RelabelKeeps(s.loc, EphL, WorkL, GrayL, s.gray);
    RelabelKeeps(s.loc, EphL, WorkL, AgainL, s.again);
    RelabelKeeps(s.loc, EphL, WorkL, WeakL, s.weak);
    RelabelKeeps(Merged(s.loc), EphL, WorkL, AllWeakL, s.allweak);
    MergedRelabel(s.loc, EphL, WorkL);
  }

  lemma EphToWorkGray(s: St)
    requires GrayInv(s.heap, s.color, s.inside, s.fixed, s.loc, {}, s.stuck)
    ensures GrayInv(s.heap, s.color, s.inside, s.fixed, EphToWork(s).loc, {}, s.stuck)
  {
    var loc' := EphToWork(s).loc;
    forall r | r in s.heap && r in s.color && r in loc' && r !in s.stuck && s.color[r].Gray?
      ensures GrayOk(Whites(s.color), s.inside, s.fixed, loc'[r], r, s.heap[r])
    {
      assert GrayOk(Whites(s.color), s.inside, s.fixed, s.loc[r], r, s.heap[r]);
    }
  }

  lemma EphToWorkRest(s: St)
    requires LocsOk(s.heap, s.color, s.loc) && StuckPlaces(s.loc, s.stuck)
    requires TwupsOk(s.heap, s.color, s.loc, s.twups, s.inside, s.remarked, {})
    requires BlackInv(s.heap, s.upv, s.color, Rule(s), s.loc, {}, s.stuck)
    ensures LocsOk(s.heap, s.color, EphToWork(s).loc) && StuckPlaces(EphToWork(s).loc, s.stuck)
    ensures TwupsOk(s.heap, s.color, EphToWork(s).loc, s.twups, s.inside, s.remarked, {})
    ensures BlackInv(s.heap, s.upv, s.color, Rule(s), EphToWork(s).loc, {}, s.stuck)
  {
    BlackInvMono(s.heap, s.upv, s.color, s.color, Rule(s), s.loc, EphToWork(s).loc, {}, {}, s.stuck);
  }

  lemma EphToWorkInv(s: St)
    requires s.work == [] && s.inside && MarkInv(s, {})
    ensures MarkInv(EphToWork(s), {}) && Progress(s, EphToWork(s))
  {
    hide HeapWF, Exist, LocsOk, NoDead, FixedOk, TwupsOk, StuckOk, BlackInv, GrayInv, BoundClosed, MarkedWithin, ListIs, AllWeakIs;
    EphToWorkLists(s);
    EphToWorkGray(s);
    EphToWorkRest(s);
    hide Trim, SameUpvals, LosesOnly, Emptied, Losable, Lists, StuckPlaces;
    NothingErased(s.heap, s.upv, Losable(s), Whites(s.color));
  }

  // Taking the next ephemeron table of the round.
  function TakeWork(s: St): St
    requires s.work != [] && s.work[0] in s.loc
  {
    s.(work := s.work[1..], loc := s.loc[s.work[0] := NoList])
  }

  lemma TakeWorkAccounted(s: St)
    requires Lists(s) && LocsOk(s.heap, s.color, s.loc) && s.work != []
    ensures s.work[0] in s.heap && s.color[s.work[0]].Gray? && s.heap[s.work[0]].Table? && s.heap[s.work[0]].mode.Ephemeron?
    ensures s.loc[s.work[0]] == WorkL && (StuckPlaces(s.loc, s.stuck) ==> s.work[0] !in s.stuck) && SameObjects(s, TakeWork(s)) && Accounted(s, TakeWork(s), {}, {s.work[0]})
    ensures LocsOk(s.heap, s.color, TakeWork(s).loc)
  {
    assert s.work[0] in s.work;
  }

  lemma TakeWorkLists(s: St)
    requires Lists(s) && s.work != [] && s.work[0] in s.loc
    ensures Lists(TakeWork(s))
  {
    ListPop(s.loc, WorkL, s.work);
    ListsOther(s, s.work[0], WorkL, NoList);
  }

  lemma TakeWorkMeta(s: St)
    requires GrayInv(s.heap, s.color, s.inside, s.fixed, s.loc, {}, s.stuck) && LocsOk(s.heap, s.color, s.loc)
    requires s.work != [] && s.work[0] in s.heap && s.loc[s.work[0]] == WorkL && s.heap[s.work[0]].Table?
    requires s.color[s.work[0]].Gray? && s.work[0] !in s.stuck
    ensures !OptIn(Whites(s.color), s.heap[s.work[0]].meta)
  {
    assert GrayOk(Whites(s.color), s.inside, s.fixed, s.loc[s.work[0]], s.work[0], s.heap[s.work[0]]);
  }

  lemma TakeWorkFacts(s: St)
    requires s.work != [] && MarkInv(s, {})
    ensures s.work[0] in s.heap && s.work[0] in s.loc && s.work[0] in s.color && s.color[s.work[0]].Gray?
    ensures s.heap[s.work[0]].Table? && s.heap[s.work[0]].mode.Ephemeron? && s.work[0] in s.bound && s.work[0] !in s.stuck
    ensures !OptIn(Whites(s.color), s.heap[s.work[0]].meta)
    ensures Progress(s, TakeWork(s))
  {
    hide HeapWF, Exist, NoDead, FixedOk, TwupsOk, StuckOk, BlackInv, GrayInv, BoundClosed, ListIs, AllWeakIs;
    TakeWorkAccounted(s);
    hide Lists, LocsOk;
    TakeWorkMeta(s);
    TrimReflexive(s.heap);
  }

  lemma TakeWorkInv(s: St)
    requires s.work != [] && MarkInv(s, {})
    ensures s.work[0] in s.loc && MarkInv(TakeWork(s), {s.work[0]})
  {
    hide HeapWF, Exist, NoDead, FixedOk, TwupsOk, StuckOk, BlackInv, GrayInv, BoundClosed, ListIs, AllWeakIs, MarkedWithin;
    TakeWorkAccounted(s);
    TakeWorkLists(s);
    hide Lists, LocsOk, Accounted;
    RecolorInv(s, TakeWork(s), {}, {s.work[0]});
  }

  // ------------------------------------------------------------------ convergence

  // No entry of the table has a marked key (or a string) and an unmarked value.
  ghost predicate EphClosed(s: St, r: Ref) {
    EphClosedTo(s.heap, Whites(s.color), Nodes(s.heap, r), |Nodes(s.heap, r)|)
  }

  lemma EphClosedKept(s: St, s': St, r: Ref)
    requires EphClosed(s, r) && Trim(s.heap, s'.heap) && OnlyStrings(s.heap, Whites(s.color), Whites(s'.color))
    ensures EphClosed(s', r)
  {
    var ns, ns' := Nodes(s.heap, r), Nodes(s'.heap, r);
    if r in s.heap { assert ObjTrim(s.heap[r], s'.heap[r]); }
    assert forall x :: x in s.heap ==> ObjTrim(s.heap[x], s'.heap[x]);
    forall i | 0 <= i < |ns'| ensures EphEntry(s'.heap, Whites(s'.color), ns'[i]) {
      assert NodeTrim(ns[i], ns'[i]) && EphEntry(s.heap, Whites(s.color), ns[i]);
    }
  }
}
