// A snapshot of what marking works on, its invariant, and the three ways a step may
// change it: recolouring and relinking, erasing, and finishing a traversal.

module GcState {
  import opened Common
  import opened GcHeap
  import opened GcInvariants

  // 'again' is the list of gray objects to revisit ('grayagain', or the copy of it
  // that the atomic phase saved) and 'work' the ephemeron tables still to be
  // revisited in the current round of convergence. 'inside' says that gcstate is
  // GCSinsideatomic, 'remarked' that 'remarkupvals' has run in this cycle, 'clearing'
  // that everything reachable has been marked, so that weak tables are being cleared.
  // 'bound' is a set closed under the references that marking follows. 'stuck' are
  // marked objects that may lead to unmarked ones and will not be traversed any more
  // (see LosesPosition and LeavesUnmarked).
  datatype St = St(heap: Heap, upv: Upvals, color: Colors, loc: Locs,
                   gray: seq<Ref>, again: seq<Ref>, weak: seq<Ref>, ephemeron: seq<Ref>,
                   allweak: seq<Ref>, work: seq<Ref>, twups: seq<Ref>,
                   white: bool, inside: bool, remarked: bool, clearing: bool, fixed: seq<Ref>, bound: set<Ref>, stuck: set<Ref>)

  function Rule(s: St): UvRule {
    if s.remarked then Remarked else if s.inside then Remarking else Flagged
  }

  ghost predicate Lists(s: St) {
    && ListIs(s.loc, GrayL, s.gray) && ListIs(s.loc, AgainL, s.again)
    && ListIs(s.loc, WeakL, s.weak) && ListIs(s.loc, EphL, s.ephemeron)
    && AllWeakIs(s.loc, s.allweak) && ListIs(s.loc, WorkL, s.work)
    && (!s.inside ==> s.weak == [] && s.ephemeron == [] && s.work == [])
  }

  // No object is dead: every white is the current one.
  ghost predicate NoDead(c: Colors, white: bool) {
    forall r :: r in c && c[r].White? ==> c[r].which == white
  }

  // Fixed objects are strings that stay marked for ever.
  ghost predicate FixedOk(h: Heap, c: Colors, fixed: seq<Ref>) {
    forall r :: r in fixed ==> r in h && h[r].Str? && r in c && !c[r].White?
  }

  // Threads with open upvalues are in 'twups'. In the atomic step, so are the marked
  // ones that will not be traversed any more.
  ghost predicate TwupsOk(h: Heap, c: Colors, loc: Locs, twups: seq<Ref>, inside: bool, remarked: bool, skip: set<Ref>) {
    && NoDup(twups)
    && (forall th :: th in twups ==> th in h && h[th].Thread? && (remarked ==> !IsWhite(c, th)))
    && (forall th :: th in h && h[th].Thread? && h[th].openupval != [] ==>
          th in twups || (inside && (IsWhite(c, th) || Pending(loc, th) || th in skip)))
  }

  // Stuck objects are in no list, except perhaps 'allweak'.
  ghost predicate StuckPlaces(loc: Locs, stuck: set<Ref>) {
    forall r :: r in stuck && r in loc ==> loc[r] == NoList || loc[r] == AllWeakL
  }

  // The invariant while marking, with the objects of 'skip' being traversed.
  ghost predicate MarkInv(s: St, skip: set<Ref>) {
    && HeapWF(s.heap, s.upv) && Exist(s.heap, s.upv)
    && Lists(s) && LocsOk(s.heap, s.color, s.loc)
    && NoDead(s.color, s.white) && FixedOk(s.heap, s.color, s.fixed)
    && TwupsOk(s.heap, s.color, s.loc, s.twups, s.inside, s.remarked, skip)
    && (s.remarked ==> s.inside)
    && StuckOk(s.heap, s.color, s.stuck) && StuckPlaces(s.loc, s.stuck)
    && BlackInv(s.heap, s.upv, s.color, Rule(s), s.loc, skip, s.stuck)
    && GrayInv(s.heap, s.color, s.inside, s.fixed, s.loc, skip, s.stuck)
    && BoundClosed(s.heap, s.upv, s.stuck, s.bound) && MarkedWithin(s.color, s.bound)
  }

  // ------------------------------------------------- recolouring and relinking

  ghost predicate Recolor(c: Colors, c': Colors) {
    && c'.Keys == c.Keys
    && forall r :: r in c && c'[r].White? ==> c'[r] == c[r]
  }

  ghost predicate SameObjects(s: St, s': St) {
    && s'.heap == s.heap && s'.upv == s.upv && s'.twups == s.twups && s'.white == s.white
    && s'.inside == s.inside && s'.remarked == s.remarked && s'.fixed == s.fixed && s'.bound == s.bound
    && s'.stuck == s.stuck
  }

  // Objects that leave 'skip', turn black or turn gray are accounted for.
  ghost predicate Accounted(s: St, s': St, skip: set<Ref>, skip': set<Ref>) {
    && skip <= skip'
    && (forall r :: Pending(s.loc, r) ==> Pending(s'.loc, r) || r in skip')
    && (StuckPlaces(s.loc, s.stuck) ==> StuckPlaces(s'.loc, s'.stuck))
    && (forall r :: r in s'.heap && r in s'.color && r !in skip' && r !in s.stuck && s'.color[r].Black? ==>
          r in s.color && s.color[r].Black?)
    && (forall r :: r in s'.heap && r in s'.color && r in s'.loc && r !in skip' && r !in s.stuck && s'.color[r].Gray? ==>
          Pending(s'.loc, r) ||
          (r in s.color && r in s.loc && r !in skip && s.color[r].Gray? && s'.loc[r] == s.loc[r]))
  }

  lemma RecolorTwups(s: St, s': St, skip: set<Ref>, skip': set<Ref>)
    requires SameObjects(s, s') && Recolor(s.color, s'.color) && Accounted(s, s', skip, skip')
    requires LocsOk(s.heap, s.color, s.loc)
    requires forall r :: r in s.color && s.color[r].White? && !s'.color[r].White? ==> r in skip' || Pending(s'.loc, r) || (r in s.heap && !s.heap[r].Thread?)
    requires TwupsOk(s.heap, s.color, s.loc, s.twups, s.inside, s.remarked, skip)
    ensures TwupsOk(s'.heap, s'.color, s'.loc, s'.twups, s'.inside, s'.remarked, skip')
  {}

  lemma RecolorMarks(s: St, s': St)
    requires SameObjects(s, s') && Recolor(s.color, s'.color)
    requires NoDead(s.color, s.white) && FixedOk(s.heap, s.color, s.fixed) && StuckOk(s.heap, s.color, s.stuck)
    ensures NoDead(s'.color, s'.white) && FixedOk(s'.heap, s'.color, s'.fixed) && StuckOk(s'.heap, s'.color, s'.stuck)
    ensures Whites(s'.color) <= Whites(s.color)
  {}

  lemma RecolorBound(s: St, s': St)
    requires SameObjects(s, s') && Recolor(s.color, s'.color) && MarkedWithin(s.color, s.bound)
    requires forall r :: r in s.color && s.color[r].White? && !s'.color[r].White? ==> r in s.bound
    ensures MarkedWithin(s'.color, s'.bound)
  {}

  lemma RecolorInv(s: St, s': St, skip: set<Ref>, skip': set<Ref>)
    requires MarkInv(s, skip) && SameObjects(s, s')
    requires Recolor(s.color, s'.color) && Accounted(s, s', skip, skip')
    requires Lists(s') && LocsOk(s'.heap, s'.color, s'.loc)
    requires forall r :: r in s.color && s.color[r].White? && !s'.color[r].White? ==>
               r in s.bound && (r in skip' || Pending(s'.loc, r) || (r in s.heap && !s.heap[r].Thread?))
    ensures MarkInv(s', skip')
  {
    hide HeapWF, Exist, Lists, LocsOk, NoDead, FixedOk, TwupsOk, StuckOk, StuckPlaces, BlackInv, GrayInv, BoundClosed, MarkedWithin;
    RecolorMarks(s, s');
    RecolorTwups(s, s', skip, skip');
    RecolorBound(s, s');
    BlackInvMono(s.heap, s.upv, s.color, s'.color, Rule(s), s.loc, s'.loc, skip, skip', s.stuck);
    GrayInvMono(s.heap, s.color, s'.color, s.inside, s.fixed, s.loc, s'.loc, skip, skip', s.stuck);
  }

  // -------------------------------------------------------- finishing a traversal

  ghost predicate Traversed(s: St, skip: set<Ref>, o: Ref) {
    && o in s.heap && o in s.color && o in s.loc
    && (s.color[o].Black? && o !in s.stuck ==> BlackOk(s.heap, s.upv, Whites(s.color), Rule(s), s.loc, skip + {o}, s.heap[o]))
    && (s.color[o].Gray? && o !in s.stuck ==> GrayOk(Whites(s.color), s.inside, s.fixed, s.loc[o], o, s.heap[o]))
    && (s.heap[o].Thread? && s.inside ==>
          Pending(s.loc, o) || (NoneIn(Whites(s.color), s.heap[o].stack) && (o in s.twups || s.heap[o].openupval == [])))
  }

  lemma FinishTwups(s: St, skip: set<Ref>, o: Ref)
    requires TwupsOk(s.heap, s.color, s.loc, s.twups, s.inside, s.remarked, skip + {o}) && Traversed(s, skip, o)
    ensures TwupsOk(s.heap, s.color, s.loc, s.twups, s.inside, s.remarked, skip)
  {}

  lemma FinishGray(s: St, skip: set<Ref>, o: Ref)
    requires GrayInv(s.heap, s.color, s.inside, s.fixed, s.loc, skip + {o}, s.stuck) && Traversed(s, skip, o)
    ensures GrayInv(s.heap, s.color, s.inside, s.fixed, s.loc, skip, s.stuck)
  {}

  lemma FinishInv(s: St, skip: set<Ref>, o: Ref)
    requires MarkInv(s, skip + {o}) && Traversed(s, skip, o)
    ensures MarkInv(s, skip)
  {
    hide HeapWF, Exist, Lists, LocsOk, NoDead, FixedOk, TwupsOk, StuckOk, StuckPlaces, BlackInv, GrayInv, BoundClosed, MarkedWithin;
    FinishTwups(s, skip, o);
    FinishGray(s, skip, o);
    BlackInvUnskip(s.heap, s.upv, s.color, Rule(s), s.loc, skip, s.stuck, o);
  }

  // ------------------------------------------------------------------- erasing

  lemma TrimLocs(h: Heap, h': Heap, c: Colors, loc: Locs)
    requires Trim(h, h') && LocsOk(h, c, loc)
    ensures LocsOk(h', c, loc)
  {
    forall r | r in h' ensures LocOk(loc[r], h'[r]) {
      assert ObjTrim(h[r], h'[r]);
    }
  }

  lemma TrimFixed(h: Heap, h': Heap, c: Colors, fixed: seq<Ref>)
    requires Trim(h, h') && FixedOk(h, c, fixed)
    ensures FixedOk(h', c, fixed)
  {
    forall r | r in fixed ensures r in h' && h'[r].Str? {
      assert ObjTrim(h[r], h'[r]);
    }
  }

  lemma TrimTwups(h: Heap, h': Heap, c: Colors, loc: Locs, twups: seq<Ref>, inside: bool, remarked: bool, skip: set<Ref>)
    requires Trim(h, h') && TwupsOk(h, c, loc, twups, inside, remarked, skip)
    ensures TwupsOk(h', c, loc, twups, inside, remarked, skip)
  {
    forall r | r in h ensures ObjTrim(h[r], h'[r]) {}
  }

  // What erasing preserves, once black objects are known to be in order.
  lemma TrimInvGiven(s: St, h': Heap, u': Upvals, skip: set<Ref>)
    requires MarkInv(s, skip) && Trim(s.heap, h') && SameOutside(s.heap, h', skip) && SameUpvals(s.upv, u')
    requires BlackInv(h', u', s.color, Rule(s), s.loc, skip, s.stuck)
    ensures MarkInv(s.(heap := h', upv := u'), skip)
  {
    hide HeapWF, Exist, LocsOk, NoDead, FixedOk, TwupsOk, StuckOk, BlackInv, GrayInv, BoundClosed, MarkedWithin, Trim, SameUpvals, SameOutside;
    TrimWF(s.heap, s.upv, h', u');
    ExistTrim(s.heap, s.upv, h', u');
    TrimLocs(s.heap, h', s.color, s.loc);
    TrimFixed(s.heap, h', s.color, s.fixed);
    TrimTwups(s.heap, h', s.color, s.loc, s.twups, s.inside, s.remarked, skip);
    StuckTrim(s.heap, h', s.color, s.stuck);
    GrayInvTrim(s.heap, h', s.color, s.inside, s.fixed, s.loc, skip, s.stuck);
    BoundTrim(s.heap, s.upv, h', u', s.stuck, s.bound);
  }

  lemma TrimInv(s: St, h': Heap, u': Upvals, skip: set<Ref>)
    requires MarkInv(s, skip) && Trim(s.heap, h') && SameOutside(s.heap, h', skip) && TouchKeeps(s.upv, u', Rule(s))
    ensures MarkInv(s.(heap := h', upv := u'), skip)
  {
    hide HeapWF, Exist, LocsOk, NoDead, FixedOk, TwupsOk, StuckOk, BlackInv, GrayInv, BoundClosed, MarkedWithin, Trim, SameUpvals, SameOutside;
    BlackInvTrim(s.heap, s.upv, h', u', s.color, Rule(s), s.loc, skip, s.stuck);
    TrimInvGiven(s, h', u', skip);
  }
}
