/**
 * Nested dispatch (unio/inc/jcu-unio/emitter.h): a callback may register listeners, remove other
 * types, and emit other types, to any depth. The handler table with its list iterators is compared
 * with one flat registration log whose entries are only ever appended or struck out.
 *
 * Premise, as for the source: a callback does not emit or `off` a type that is being dispatched.
 */
module EmitterLog {
  import opened Prelude

  datatype Slot = Slot(id: nat, once: bool)

  datatype Entry = Entry(event: nat, slot: Slot, live: bool)

  datatype Label =
    | Register(event: nat, slot: Slot)
    | Begin(target: nat)      // emit
    | Call                    // the dispatch loop reaches its next listener
    | Return                  // that listener's callback returns
    | End                     // the dispatch loop finds no further listener
    | Off(removed: nat)
    | OffAll

  datatype Frame = Frame(event: nat, at: nat, calling: bool, count: nat)

  /** Emitter with a handler table; a frame's `at` is the iterator's place in its list. */
  datatype Tabled = Tabled(
    table: map<nat, seq<Slot>>, frames: seq<Frame>, calls: seq<(nat, nat)>, returned: seq<(nat, nat)>)

  /** Emitter with a flat log; a frame's `at` is a place in the log. */
  datatype Flat = Flat(
    log: seq<Entry>, frames: seq<Frame>, calls: seq<(nat, nat)>, returned: seq<(nat, nat)>)

  predicate UserTurn(fs: seq<Frame>) {
    fs == [] || fs[|fs| - 1].calling
  }

  predicate Active(fs: seq<Frame>, t: nat) {
    exists i :: 0 <= i < |fs| && fs[i].event == t
  }

  function Top(fs: seq<Frame>): Frame
    requires fs != []
  {
    fs[|fs| - 1]
  }

  function Below(fs: seq<Frame>): seq<Frame>
    requires fs != []
  {
    fs[..|fs| - 1]
  }

  predicate Looping(fs: seq<Frame>) {
    fs != [] && !Top(fs).calling
  }

  // ---- the handler table ----

  predicate TEnabled(s: Tabled, l: Label) {
    match l
    case Register(_, _) => UserTurn(s.frames)
    case Begin(t) => UserTurn(s.frames) && !Active(s.frames, t)
    case Call => Looping(s.frames) && Top(s.frames).at < |Lookup(s.table, Top(s.frames).event)|
    case Return => s.frames != [] && Top(s.frames).calling
                   && Top(s.frames).at < |Lookup(s.table, Top(s.frames).event)|
    case End => Looping(s.frames) && Top(s.frames).at >= |Lookup(s.table, Top(s.frames).event)|
    case Off(t) => UserTurn(s.frames) && !Active(s.frames, t)
    case OffAll => s.frames == []
  }

  function TStep(s: Tabled, l: Label): Tabled
    requires TEnabled(s, l)
  {
    match l
    case Register(t, slot) => s.(table := s.table[t := Lookup(s.table, t) + [slot]])
    case Begin(t) => s.(frames := s.frames + [Frame(t, 0, false, 0)])
    case Call =>
      var f := Top(s.frames);
      s.(frames := Below(s.frames) + [f.(calling := true)],
         calls := s.calls + [(f.event, s.table[f.event][f.at].id)])
    case Return =>
      var f := Top(s.frames);
      var list := s.table[f.event];
      var g := f.(calling := false, count := f.count + 1);
      if list[f.at].once then
        s.(frames := Below(s.frames) + [g],
           table := s.table[f.event := list[..f.at] + list[f.at + 1..]])
      else
        s.(frames := Below(s.frames) + [g.(at := f.at + 1)])
    case End =>
      s.(frames := Below(s.frames), returned := s.returned + [(Top(s.frames).event, Top(s.frames).count)])
    case Off(t) => s.(table := s.table - {t})
    case OffAll => s.(table := map[])
  }

  // ---- the flat log ----

  predicate Hit(e: Entry, t: nat) {
    e.live && e.event == t
  }

  /** The first live entry of type `t` at or after `c`, or the end of the log. */
  function Next(log: seq<Entry>, t: nat, c: nat): (n: nat)
    requires c <= |log|
    ensures c <= n <= |log|
    ensures n < |log| ==> Hit(log[n], t)
    ensures forall i :: c <= i < n ==> !Hit(log[i], t)
    decreases |log| - c
  {
    if c == |log| || Hit(log[c], t) then c else Next(log, t, c + 1)
  }

  function StrikeType(log: seq<Entry>, t: nat): seq<Entry> {
    seq(|log|, i requires 0 <= i < |log| => if log[i].event == t then log[i].(live := false) else log[i])
  }

  function StrikeAll(log: seq<Entry>): seq<Entry> {
    seq(|log|, i requires 0 <= i < |log| => log[i].(live := false))
  }

  predicate FEnabled(s: Flat, l: Label) {
    match l
    case Register(_, _) => UserTurn(s.frames)
    case Begin(t) => UserTurn(s.frames) && !Active(s.frames, t)
    case Call => Looping(s.frames) && Top(s.frames).at <= |s.log|
                 && Next(s.log, Top(s.frames).event, Top(s.frames).at) < |s.log|
    case Return => s.frames != [] && Top(s.frames).calling && Top(s.frames).at < |s.log|
    case End => Looping(s.frames) && Top(s.frames).at <= |s.log|
                && Next(s.log, Top(s.frames).event, Top(s.frames).at) == |s.log|
    case Off(t) => UserTurn(s.frames) && !Active(s.frames, t)
    case OffAll => s.frames == []
  }

  function FStep(s: Flat, l: Label): Flat
    requires FEnabled(s, l)
  {
    match l
    case Register(t, slot) => s.(log := s.log + [Entry(t, slot, true)])
    case Begin(t) => s.(frames := s.frames + [Frame(t, 0, false, 0)])
    case Call =>
      var f := Top(s.frames);
      var n := Next(s.log, f.event, f.at);
      s.(frames := Below(s.frames) + [f.(at := n, calling := true)],
         calls := s.calls + [(f.event, s.log[n].slot.id)])
    case Return =>
      var f := Top(s.frames);
      s.(frames := Below(s.frames) + [f.(at := f.at + 1, calling := false, count := f.count + 1)],
         log := if s.log[f.at].slot.once then s.log[f.at := s.log[f.at].(live := false)] else s.log)
    case End =>
      s.(frames := Below(s.frames), returned := s.returned + [(Top(s.frames).event, Top(s.frames).count)])
    case Off(t) => s.(log := StrikeType(s.log, t))
    case OffAll => s.(log := StrikeAll(s.log))
  }

  // ---- what the log says about one type ----

  function Slots(log: seq<Entry>, t: nat): seq<Slot> {
    if log == [] then []
    else (if Hit(log[0], t) then [log[0].slot] else []) + Slots(log[1..], t)
  }

  lemma {:induction false} SlotsAppend(a: seq<Entry>, b: seq<Entry>, t: nat)
    ensures Slots(a + b, t) == Slots(a, t) + Slots(b, t)
  {
    if a == [] {
      assert a + b == b;
    } else {
      var first := if Hit(a[0], t) then [a[0].slot] else [];
      calc {
        Slots(a + b, t);
        { assert (a + b)[0] == a[0] && (a + b)[1..] == a[1..] + b; }
        first + Slots(a[1..] + b, t);
        { SlotsAppend(a[1..], b, t); }
        first + (Slots(a[1..], t) + Slots(b, t));
        Slots(a, t) + Slots(b, t);
      }
    }
  }

  lemma {:induction false} SlotsNone(log: seq<Entry>, t: nat)
    requires forall i :: 0 <= i < |log| ==> !Hit(log[i], t)
    ensures Slots(log, t) == []
  {
    if log != [] {
      SlotsNone(log[1..], t);
    }
  }

  /** A log read around one of its entries. */
  lemma SlotsAround(log: seq<Entry>, t: nat, c: nat)
    requires c < |log|
    ensures Slots(log[..c + 1], t) == Slots(log[..c], t) + (if Hit(log[c], t) then [log[c].slot] else [])
    ensures Slots(log, t) == Slots(log[..c + 1], t) + Slots(log[c + 1..], t)
  {
    assert log[..c + 1] == log[..c] + [log[c]];
    SlotsAppend(log[..c], [log[c]], t);
    assert Slots([log[c]], t) == (if Hit(log[c], t) then [log[c].slot] else []) + Slots([], t);
    assert log == log[..c + 1] + log[c + 1..];
    SlotsAppend(log[..c + 1], log[c + 1..], t);
  }

  lemma SlotsSkip(log: seq<Entry>, t: nat, c: nat)
    requires c <= |log|
    ensures Slots(log[..Next(log, t, c)], t) == Slots(log[..c], t)
  {
    var n := Next(log, t, c);
    assert log[..n] == log[..c] + log[c..n];
    SlotsAppend(log[..c], log[c..n], t);
    SlotsNone(log[c..n], t);
  }

  /** Striking the entry at `c` removes it from its own type's list and from nothing else. */
  lemma StrikeOne(log: seq<Entry>, t: nat, c: nat)
    requires c < |log| && Hit(log[c], t)
    ensures var struck := log[c := log[c].(live := false)];
            var k := |Slots(log[..c], t)|;
            && k < |Slots(log, t)|
            && Slots(struck, t) == Slots(log, t)[..k] + Slots(log, t)[k + 1..]
            && Slots(struck[..c + 1], t) == Slots(log[..c], t)
  {
    var struck := log[c := log[c].(live := false)];
    SlotsAround(log, t, c);
    SlotsAround(struck, t, c);
    assert struck[..c] == log[..c] && struck[c + 1..] == log[c + 1..];
  }

  lemma {:induction false} StrikeOthers(log: seq<Entry>, c: nat, u: nat)
    requires c < |log| && log[c].event != u
    ensures Slots(log[c := log[c].(live := false)], u) == Slots(log, u)
  {
    var struck := log[c := log[c].(live := false)];
    SlotsAround(log, u, c);
    SlotsAround(struck, u, c);
    assert struck[..c] == log[..c] && struck[c + 1..] == log[c + 1..];
  }

  lemma {:induction false} StrikeTypeSlots(log: seq<Entry>, t: nat, u: nat)
    ensures Slots(StrikeType(log, t), u) == if u == t then [] else Slots(log, u)
  {
    if log != [] {
      StrikeTypeSlots(log[1..], t, u);
      assert StrikeType(log, t)[1..] == StrikeType(log[1..], t);
    }
  }

  // ---- the refinement ----

  predicate FramesAgree(log: seq<Entry>, f: Frame, g: Frame) {
    && f.event == g.event && f.calling == g.calling && f.count == g.count
    && g.at <= |log|
    && f.at == |Slots(log[..g.at], f.event)|
    && (g.calling ==> g.at < |log| && Hit(log[g.at], g.event))
  }

  ghost predicate Agree(s: Tabled, r: Flat) {
    && (forall t: nat :: Lookup(s.table, t) == Slots(r.log, t))
    && |s.frames| == |r.frames|
    && (forall i :: 0 <= i < |s.frames| ==> FramesAgree(r.log, s.frames[i], r.frames[i]))
    && (forall i, j :: 0 <= i < j < |s.frames| ==> s.frames[i].event != s.frames[j].event)
    && s.calls == r.calls
    && s.returned == r.returned
  }

  lemma ActiveAgree(s: Tabled, r: Flat, t: nat)
    requires Agree(s, r)
    ensures Active(s.frames, t) <==> Active(r.frames, t)
    ensures UserTurn(s.frames) <==> UserTurn(r.frames)
  {
    if Active(s.frames, t) {
      var i :| 0 <= i < |s.frames| && s.frames[i].event == t;
      assert r.frames[i].event == t;
    }
    if Active(r.frames, t) {
      var i :| 0 <= i < |r.frames| && r.frames[i].event == t;
      assert s.frames[i].event == t;
    }
  }

  /** Where the table's iterator stands, the log's next live entry stands. */
  lemma SameListener(s: Tabled, r: Flat)
    requires Agree(s, r) && s.frames != []
    ensures var f, g := Top(s.frames), Top(r.frames);
            var n := Next(r.log, g.event, g.at);
            && (f.at < |Lookup(s.table, f.event)| <==> n < |r.log|)
            && (n < |r.log| ==> s.table[f.event][f.at] == r.log[n].slot
                                && |Slots(r.log[..n], f.event)| == f.at)
            && (g.calling ==> n == g.at)
  {
    var f, g := Top(s.frames), Top(r.frames);
    var n := Next(r.log, g.event, g.at);
    SlotsSkip(r.log, g.event, g.at);
    if n < |r.log| {
      SlotsAround(r.log, g.event, n);
    } else {
      assert r.log[..n] == r.log;
    }
  }

  lemma RegisterAgrees(s: Tabled, r: Flat, t: nat, slot: Slot)
    requires Agree(s, r) && UserTurn(s.frames) && UserTurn(r.frames)
    ensures Agree(TStep(s, Register(t, slot)), FStep(r, Register(t, slot)))
  {
    var e := Entry(t, slot, true);
    forall u: nat ensures Slots(r.log + [e], u) == Slots(r.log, u) + (if u == t then [slot] else []) {
      SlotsAppend(r.log, [e], u);
      assert Slots([e], u) == (if Hit(e, u) then [slot] else []) + Slots([], u);
    }
    forall i | 0 <= i < |s.frames| ensures FramesAgree(r.log + [e], s.frames[i], r.frames[i]) {
      assert (r.log + [e])[..r.frames[i].at] == r.log[..r.frames[i].at];
    }
  }

  lemma ReturnAgrees(s: Tabled, r: Flat)
    requires Agree(s, r) && TEnabled(s, Return) && FEnabled(r, Return)
    ensures Agree(TStep(s, Return), FStep(r, Return))
  {
    var f, g := Top(s.frames), Top(r.frames);
    SameListener(s, r);
    SlotsAround(r.log, f.event, g.at);
    if r.log[g.at].slot.once {
      ReturnOnce(s, r);
    }
  }

  lemma ReturnOnce(s: Tabled, r: Flat)
    requires Agree(s, r) && TEnabled(s, Return) && FEnabled(r, Return)
    requires r.log[Top(r.frames).at].slot.once
    ensures Agree(TStep(s, Return), FStep(r, Return))
  {
    var f, g := Top(s.frames), Top(r.frames);
    SameListener(s, r);
    StrikeOne(r.log, f.event, g.at);
    var s', r' := TStep(s, Return), FStep(r, Return);
    forall u: nat ensures Lookup(s'.table, u) == Slots(r'.log, u) {
      if u != f.event {
        StrikeOthers(r.log, g.at, u);
      }
    }
    forall i | 0 <= i < |s'.frames| ensures FramesAgree(r'.log, s'.frames[i], r'.frames[i]) {
      if i < |s.frames| - 1 {
        StruckPrefix(r.log, g.at, r.frames[i].at, r.frames[i].event);
      }
    }
  }

  /** A frame of another type does not notice that the entry at `c` was struck. */
  lemma StruckPrefix(log: seq<Entry>, c: nat, d: nat, u: nat)
    requires c < |log| && d <= |log| && log[c].event != u
    ensures Slots(log[c := log[c].(live := false)][..d], u) == Slots(log[..d], u)
  {
    var struck := log[c := log[c].(live := false)];
    if c < d {
      assert struck[..d] == log[..d][c := log[c].(live := false)];
      StrikeOthers(log[..d], c, u);
    } else {
      assert struck[..d] == log[..d];
    }
  }

  lemma OffAgrees(s: Tabled, r: Flat, t: nat)
    requires Agree(s, r) && TEnabled(s, Off(t)) && FEnabled(r, Off(t))
    ensures Agree(TStep(s, Off(t)), FStep(r, Off(t)))
  {
    forall u: nat ensures Slots(StrikeType(r.log, t), u) == if u == t then [] else Slots(r.log, u) {
      StrikeTypeSlots(r.log, t, u);
    }
    forall i | 0 <= i < |s.frames| ensures FramesAgree(StrikeType(r.log, t), s.frames[i], r.frames[i]) {
      var d := r.frames[i].at;
      assert StrikeType(r.log, t)[..d] == StrikeType(r.log[..d], t);
      StrikeTypeSlots(r.log[..d], t, r.frames[i].event);
      assert r.frames[i].event != t;
    }
  }

  lemma BeginAgrees(s: Tabled, r: Flat, t: nat)
    requires Agree(s, r) && TEnabled(s, Begin(t)) && FEnabled(r, Begin(t))
    ensures Agree(TStep(s, Begin(t)), FStep(r, Begin(t)))
  {
    assert Slots(r.log[..0], t) == [];
    forall i | 0 <= i < |s.frames| ensures s.frames[i].event != t {}
  }

  lemma CallAgrees(s: Tabled, r: Flat)
    requires Agree(s, r) && TEnabled(s, Call) && FEnabled(r, Call)
    ensures Agree(TStep(s, Call), FStep(r, Call))
  {
    SameListener(s, r);
  }

  lemma OffAllAgrees(s: Tabled, r: Flat)
    requires Agree(s, r) && TEnabled(s, OffAll) && FEnabled(r, OffAll)
    ensures Agree(TStep(s, OffAll), FStep(r, OffAll))
  {
    forall u: nat ensures Slots(StrikeAll(r.log), u) == [] {
      SlotsNone(StrikeAll(r.log), u);
    }
  }

  /** The two emitters can always take the same steps. */
  lemma SameSteps(s: Tabled, r: Flat, l: Label)
    requires Agree(s, r)
    ensures TEnabled(s, l) <==> FEnabled(r, l)
  {
    ActiveAgree(s, r, match l case Begin(t) => t case Off(t) => t case _ => 0);
    if s.frames != [] {
      SameListener(s, r);
    }
  }

  /** One step: either both emitters can take it or neither, and they stay in agreement. */
  lemma StepAgrees(s: Tabled, r: Flat, l: Label)
    requires Agree(s, r)
    ensures TEnabled(s, l) <==> FEnabled(r, l)
    ensures TEnabled(s, l) ==> Agree(TStep(s, l), FStep(r, l))
  {
    SameSteps(s, r, l);
    if TEnabled(s, l) {
      match l {
        case Register(t, slot) => RegisterAgrees(s, r, t, slot);
        case Begin(t) => BeginAgrees(s, r, t);
        case Call => CallAgrees(s, r);
        case Return => ReturnAgrees(s, r);
        case End =>
        case Off(t) => OffAgrees(s, r, t);
        case OffAll => OffAllAgrees(s, r);
      }
    }
  }

  predicate TValid(s: Tabled, ls: seq<Label>)
    decreases ls
  {
    ls == [] || (TEnabled(s, ls[0]) && TValid(TStep(s, ls[0]), ls[1..]))
  }

  function TRun(s: Tabled, ls: seq<Label>): Tabled
    requires TValid(s, ls)
    decreases ls
  {
    if ls == [] then s else TRun(TStep(s, ls[0]), ls[1..])
  }

  predicate FValid(s: Flat, ls: seq<Label>)
    decreases ls
  {
    ls == [] || (FEnabled(s, ls[0]) && FValid(FStep(s, ls[0]), ls[1..]))
  }

  function FRun(s: Flat, ls: seq<Label>): Flat
    requires FValid(s, ls)
    decreases ls
  {
    if ls == [] then s else FRun(FStep(s, ls[0]), ls[1..])
  }

  lemma {:induction false} RunAgrees(s: Tabled, r: Flat, ls: seq<Label>)
    requires Agree(s, r)
    ensures TValid(s, ls) <==> FValid(r, ls)
    ensures TValid(s, ls) ==> Agree(TRun(s, ls), FRun(r, ls))
    decreases ls
  {
    if ls != [] {
      StepAgrees(s, r, ls[0]);
      if TEnabled(s, ls[0]) {
        RunAgrees(TStep(s, ls[0]), FStep(r, ls[0]), ls[1..]);
      }
    }
  }

  const NEW_TABLE: Tabled := Tabled(map[], [], [], [])
  const NEW_LOG: Flat := Flat([], [], [], [])

  /**
   * Every trace of on/once/emit/off/offAll with re-entrant callbacks: the table accepts it exactly
   * when the flat log does, invokes the same listeners in the same order, returns the same counts,
   * and is left holding for each type the log's live entries of that type, in registration order.
   */
  lemma TableRefinesLog(ls: seq<Label>, t: nat)
    ensures TValid(NEW_TABLE, ls) <==> FValid(NEW_LOG, ls)
    ensures TValid(NEW_TABLE, ls) ==>
              var s, r := TRun(NEW_TABLE, ls), FRun(NEW_LOG, ls);
              && s.calls == r.calls && s.returned == r.returned
              && Lookup(s.table, t) == Slots(r.log, t)
  {
    RunAgrees(NEW_TABLE, NEW_LOG, ls);
  }
}
