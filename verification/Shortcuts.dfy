/**
 The shortcut engine: which key presses complete a chord, and which key releases are the engine's.
 */
module Shortcuts {
  import opened Basics

  /** A USB HID usage id. */
  type Key = nat

  const SCROLL_LOCK: Key := 0x47
  const PAUSE: Key := 0x48
  const MIN_BINDABLE_KEY: Key := 0x04

  predicate IsControl(key: Key) { key == 0xE0 || key == 0xE4 }
  predicate IsShift(key: Key) { key == 0xE1 || key == 0xE5 }
  predicate IsAlt(key: Key) { key == 0xE2 || key == 0xE6 }
  predicate IsMeta(key: Key) { key == 0xE3 || key == 0xE7 }

  predicate IsModifier(key: Key) {
    IsControl(key) || IsShift(key) || IsAlt(key) || IsMeta(key)
  }

  datatype Mods = Mods(ctrl: bool, alt: bool, shift: bool, meta: bool) {
    predicate Any() {
      ctrl || alt || shift || meta
    }

    function ApplyKey(key: Key, down: bool): Mods {
      if IsControl(key) then this.(ctrl := down)
      else if IsShift(key) then this.(shift := down)
      else if IsAlt(key) then this.(alt := down)
      else if IsMeta(key) then this.(meta := down)
      else this
    }
  }

  const NO_MODS := Mods(false, false, false, false)

  datatype Binding = Binding(mods: Mods, key: Key, action: string, screen: string)

  /** Keys whose bare press means nothing to applications: Scroll Lock, Pause, F13 to F24. */
  predicate BareSafe(key: Key) {
    key == SCROLL_LOCK || key == PAUSE || 0x68 <= key <= 0x73
  }

  predicate IsBindable(b: Binding) {
    b.key >= MIN_BINDABLE_KEY && !IsModifier(b.key) && (b.mods.Any() || BareSafe(b.key))
  }

  datatype Section = Section(enabled: bool, bindings: seq<Binding>)

  function Retained(bindings: seq<Binding>): (r: seq<Binding>)
    ensures forall b :: b in r <==> b in bindings && IsBindable(b)
    decreases |bindings|
  {
    if bindings == [] then []
    else
      var last := bindings[|bindings| - 1];
      Retained(bindings[..|bindings| - 1]) + (if IsBindable(last) then [last] else [])
  }

  /** Order and repetitions survive: a kept binding stands where it stood among the kept. */
  lemma {:induction false} RetainedInOrder(first: seq<Binding>, second: seq<Binding>)
    ensures Retained(first + second) == Retained(first) + Retained(second)
    decreases |second|
  {
    if second == [] {
      assert first + second == first;
    } else {
      var n := |second| - 1;
      assert (first + second)[..|first + second| - 1] == first + second[..n];
      RetainedInOrder(first, second[..n]);
      assert Retained(first) + Retained(second[..n]) + [] == Retained(first) + Retained(second[..n]);
    }
  }

  function Sanitized(cfg: Section): Section {
    cfg.(bindings := Retained(cfg.bindings))
  }

  datatype UserAction = SwitchToScreen(to: string) | SwitchNext | ToggleLock | GoHome

  /** What a binding's action comes to; nothing for an unknown one, or `home` when at home. */
  function Resolve(b: Binding, atHome: bool): Option<UserAction> {
    if b.action == "switch" && b.screen != "" then Some(SwitchToScreen(b.screen))
    else if b.action == "cycle" then Some(SwitchNext)
    else if b.action == "lock" then Some(ToggleLock)
    else if b.action == "home" && !atHome then Some(GoHome)
    else None
  }

  predicate Matches(b: Binding, key: Key, mods: Mods) {
    b.key == key && b.mods == mods
  }

  /** The first binding of exactly this chord, or none when there is none. */
  function FirstMatch(bindings: seq<Binding>, key: Key, mods: Mods): (r: Option<Binding>)
    ensures r.None? <==> forall i :: 0 <= i < |bindings| ==> !Matches(bindings[i], key, mods)
    ensures r.Some? ==> exists i :: 0 <= i < |bindings| && bindings[i] == r.value && Matches(r.value, key, mods)
                                    && forall j :: 0 <= j < i ==> !Matches(bindings[j], key, mods)
    decreases |bindings|
  {
    if bindings == [] then None
    else if Matches(bindings[0], key, mods) then Some(bindings[0])
    else
      var later := FirstMatch(bindings[1..], key, mods);
      assert forall i :: 1 <= i < |bindings| ==> bindings[i] == bindings[1..][i - 1];
      assert forall i :: 0 <= i < |bindings| - 1 ==> bindings[1..][i] == bindings[i + 1];
      later
  }

  predicate Names(bindings: seq<Binding>, key: Key) {
    exists i :: 0 <= i < |bindings| && bindings[i].key == key
  }

  function WithoutFirst(keys: seq<Key>, key: Key): seq<Key>
    decreases |keys|
  {
    if keys == [] then []
    else if keys[0] == key then keys[1..]
    else [keys[0]] + WithoutFirst(keys[1..], key)
  }

  lemma {:induction false} WithoutFirstAt(keys: seq<Key>, key: Key, i: nat)
    requires i < |keys| && keys[i] == key && forall j :: 0 <= j < i ==> keys[j] != key
    ensures WithoutFirst(keys, key) == keys[..i] + keys[i + 1..]
    decreases i
  {
    if i > 0 {
      WithoutFirstAt(keys[1..], key, i - 1);
      assert keys[..i] == [keys[0]] + keys[1..][..i - 1];
    }
  }

  datatype Chord = Chord(key: Key, mods: Mods)

  /** The engine's state as a value, and what each of its operations makes of it. */
  datatype Engine = Engine(
    cfg: Section, mods: Mods, pending: Option<Chord>, fired: Option<Key>, owned: seq<Key>,
    lastSeen: Option<Chord>)
  {
    function Tick(expired: bool): Engine {
      if expired then this.(pending := None) else this
    }

    function SetConfig(cfg: Section): Engine {
      this.(pending := None, cfg := Sanitized(cfg))
    }

    /** The modifiers a press counts with: those tracked, or the caller's hint when none are. */
    function Effective(hint: Mods): Mods {
      if mods.Any() then mods else hint
    }

    function KeyDown(key: Key, hint: Mods, atHome: bool, expired: bool): (Engine, Option<UserAction>) {
      if !cfg.enabled then (this, None)
      else if IsModifier(key) then
        var held := mods.ApplyKey(key, true);
        var t := Tick(expired);
        (t.(mods := held, pending := if t.pending.Some? then Some(Chord(t.pending.value.key, held)) else None), None)
      else
        var chord := Effective(hint);
        var seen := this.(pending := None, lastSeen := Some(Chord(key, chord)));
        var match_ := FirstMatch(cfg.bindings, key, chord);
        if match_.Some? then (seen.(fired := Some(key)), Resolve(match_.value, atHome))
        else if Names(cfg.bindings, key) then (seen.(pending := Some(Chord(key, chord)), owned := owned + [key]), None)
        else (seen, None)
    }

    function KeyUp(key: Key): (Engine, Option<Key>) {
      if IsModifier(key) then (this.(mods := mods.ApplyKey(key, false)), None)
      else if fired == Some(key) then (this.(fired := None), Some(key))
      else if key in owned then (this.(owned := WithoutFirst(owned, key)), Some(key))
      else if pending.Some? && pending.value.key == key then (this, Some(key))
      else (this, None)
    }
  }

  function Fresh(cfg: Section): Engine {
    Engine(Sanitized(cfg), NO_MODS, None, None, [], None)
  }

  // ---------------------------------------------------------------------------
  // The engine as it runs
  // ---------------------------------------------------------------------------

  method Sanitize(cfg: Section) returns (r: Section)
    ensures r == Sanitized(cfg)
  {
    var kept: seq<Binding> := [];
    for i := 0 to |cfg.bindings|
      invariant kept == Retained(cfg.bindings[..i])
    {
      assert cfg.bindings[..i + 1][..i] == cfg.bindings[..i];
      if IsBindable(cfg.bindings[i]) {
        kept := kept + [cfg.bindings[i]];
      }
    }
    assert cfg.bindings[..|cfg.bindings|] == cfg.bindings;
    r := Section(cfg.enabled, kept);
  }

  class ActionEngine {
    var cfg: Section
    var mods: Mods
    var pending: Option<Chord>
    var fired: Option<Key>
    var owned: seq<Key>
    var lastSeen: Option<Chord>

    function State(): Engine
      reads this
    {
      Engine(cfg, mods, pending, fired, owned, lastSeen)
    }

    constructor (cfg: Section)
      ensures State() == Fresh(cfg)
    {
      mods, pending, fired, owned, lastSeen := NO_MODS, None, None, [], None;
      new;
      var clean := Sanitize(cfg);
      this.cfg := clean;
    }

    method SetConfig(cfg: Section)
      modifies this
      ensures State() == old(State()).SetConfig(cfg)
    {
      pending := None;
      var clean := Sanitize(cfg);
      this.cfg := clean;
    }

    method Tick(expired: bool)
      modifies this`pending
      ensures State() == old(State()).Tick(expired)
    {
      if pending.Some? && expired {
        pending := None;
      }
    }

    method FindBinding(key: Key, chord: Mods) returns (r: Option<Binding>)
      ensures r == FirstMatch(cfg.bindings, key, chord)
    {
      for i := 0 to |cfg.bindings|
        invariant FirstMatch(cfg.bindings, key, chord) == FirstMatch(cfg.bindings[i..], key, chord)
      {
        if cfg.bindings[i].key == key && cfg.bindings[i].mods == chord {
          return Some(cfg.bindings[i]);
        }
      }
      r := None;
    }

    method StartsChord(key: Key) returns (r: bool)
      ensures r == Names(cfg.bindings, key)
    {
      for i := 0 to |cfg.bindings|
        invariant forall j :: 0 <= j < i ==> cfg.bindings[j].key != key
      {
        if cfg.bindings[i].key == key {
          return true;
        }
      }
      r := false;
    }

    method KeyDown(key: Key, hint: Mods, atHome: bool, expired: bool) returns (action: Option<UserAction>)
      modifies this
      ensures (State(), action) == old(State()).KeyDown(key, hint, atHome, expired)
    {
      if !cfg.enabled {
        return None;
      }
      Tick(expired);
      if IsModifier(key) {
        mods := mods.ApplyKey(key, true);
        if pending.Some? {
          pending := Some(Chord(pending.value.key, mods));
        }
        return None;
      }
      pending := None;
      var chord := if mods.Any() then mods else hint;
      lastSeen := Some(Chord(key, chord));
      var found := FindBinding(key, chord);
      if found.Some? {
        fired := Some(key);
        return Resolve(found.value, atHome);
      }
      var starts := StartsChord(key);
      if starts {
        pending := Some(Chord(key, chord));
        owned := owned + [key];
      }
      action := None;
    }

    method Disown(key: Key) returns (found: bool)
      modifies this`owned
      ensures found == (key in old(owned))
      ensures owned == if found then WithoutFirst(old(owned), key) else old(owned)
    {
      for i := 0 to |owned|
        invariant owned == old(owned) && forall j :: 0 <= j < i ==> owned[j] != key
      {
        if owned[i] == key {
          WithoutFirstAt(owned, key, i);
          owned := owned[..i] + owned[i + 1..];
          return true;
        }
      }
      found := false;
    }

    method KeyUp(key: Key) returns (mine: Option<Key>)
      modifies this
      ensures (State(), mine) == old(State()).KeyUp(key)
    {
      if IsModifier(key) {
        mods := mods.ApplyKey(key, false);
        return None;
      }
      if fired == Some(key) {
        fired := None;
        return Some(key);
      }
      var consumed := Disown(key);
      if consumed {
        return Some(key);
      }
      if pending.Some? && pending.value.key == key {
        return Some(key);
      }
      mine := None;
    }
  }

  // ---------------------------------------------------------------------------
  // The session around the engine
  // ---------------------------------------------------------------------------

  datatype KeyKind = Down | Up | Repeat

  datatype Outcome = Execute(action: UserAction) | Forward(kind: KeyKind, key: Key) | Nothing

  /** A local key event: the engine's, or forwarded while the cursor is away. */
  function OnLocalKey(e: Engine, kind: KeyKind, key: Key, hint: Mods, away: bool, expired: bool): (Engine, Outcome) {
    var passed := if away then Forward(kind, key) else Nothing;
    match kind
    case Down =>
      var (next, action) := e.KeyDown(key, hint, !away, expired);
      (next, if action.Some? then Execute(action.value) else passed)
    case Up =>
      var (next, mine) := e.KeyUp(key);
      (next, if mine.Some? then Nothing else passed)
    case Repeat => (e, passed)
  }

  method HandleLocalKey(engine: ActionEngine, kind: KeyKind, key: Key, away: bool, expired: bool)
    returns (outcome: Outcome)
    modifies engine
    ensures (engine.State(), outcome) == OnLocalKey(old(engine.State()), kind, key, NO_MODS, away, expired)
  {
    match kind {
      case Down =>
        var action := engine.KeyDown(key, NO_MODS, !away, expired);
        if action.Some? {
          return Execute(action.value);
        }
      case Up =>
        var mine := engine.KeyUp(key);
        if mine.Some? {
          return Nothing;
        }
      case Repeat =>
    }
    outcome := if away then Forward(kind, key) else Nothing;
  }

  /** Where the cursor is: on the server's own screen, on one particular client, or on another one. */
  datatype Place = Home | There | Elsewhere

  /** The engine, the cursor's place, and the keys that particular client holds down. */
  datatype Session = Session(engine: Engine, place: Place, held: set<Key>)

  datatype Input =
    | Press(key: Key, hint: Mods, expired: bool)
    | Again(key: Key)              // the keyboard repeats a held key
    | Lift(key: Key)
    | Reload(cfg: Section)
    | Expire(expired: bool)
    | Cross(place: Place)          // control moves; a client it leaves releases what it holds

  function Start(cfg: Section): Session {
    Session(Fresh(cfg), Home, {})
  }

  /** What forwarding does to the client's keys; a repeat starts no press there. */
  function Deliver(s: Session, outcome: Outcome): set<Key> {
    if !s.place.There? || !outcome.Forward? then s.held
    else
      match outcome.kind
      case Down => s.held + {outcome.key}
      case Up => s.held - {outcome.key}
      case Repeat => s.held
  }

  function Typed(s: Session, kind: KeyKind, key: Key, hint: Mods, expired: bool): Session {
    var (next, outcome) := OnLocalKey(s.engine, kind, key, hint, !s.place.Home?, expired);
    Session(next, s.place, Deliver(s, outcome))
  }

  function Feed(s: Session, input: Input): Session {
    match input
    case Press(key, hint, expired) => Typed(s, Down, key, hint, expired)
    case Again(key) => Typed(s, Repeat, key, NO_MODS, false)
    case Lift(key) => Typed(s, Up, key, NO_MODS, false)
    case Reload(cfg) => s.(engine := s.engine.SetConfig(cfg))
    case Expire(expired) => s.(engine := s.engine.Tick(expired))
    case Cross(place) => s.(place := place, held := {})
  }

  function FeedAll(s: Session, inputs: seq<Input>): Session
    decreases |inputs|
  {
    if inputs == [] then s else FeedAll(Feed(s, inputs[0]), inputs[1..])
  }

  // ---------------------------------------------------------------------------
  // Keys no configuration names
  // ---------------------------------------------------------------------------

  /** The bindings in force after an input. */
  function After(bindings: seq<Binding>, input: Input): seq<Binding> {
    if input.Reload? then Sanitized(input.cfg).bindings else bindings
  }

  /** Does the configuration in force, or one adopted later, name the key in a binding that is kept? */
  predicate EverNamed(bindings: seq<Binding>, inputs: seq<Input>, key: Key)
    decreases |inputs|
  {
    Names(bindings, key) || (inputs != [] && EverNamed(After(bindings, inputs[0]), inputs[1..], key))
  }

  /** The engine remembers the key in no way that would let it claim its release. */
  predicate Foreign(e: Engine, key: Key) {
    && e.fired != Some(key)
    && key !in e.owned
    && (e.pending.Some? ==> e.pending.value.key != key)
  }

  lemma {:induction false} WithoutFirstIsPart(keys: seq<Key>, key: Key, k: Key)
    requires k in WithoutFirst(keys, key)
    ensures k in keys
    decreases |keys|
  {
    if keys != [] && keys[0] != key {
      if k != keys[0] { WithoutFirstIsPart(keys[1..], key, k); }
    }
  }

  lemma {:induction false} MatchIsNamed(bindings: seq<Binding>, key: Key, mods: Mods)
    requires FirstMatch(bindings, key, mods).Some?
    ensures Names(bindings, key)
  {
  }

  lemma {:induction false} FeedKeepsForeign(s: Session, input: Input, key: Key)
    requires Foreign(s.engine, key) && !Names(s.engine.cfg.bindings, key)
    ensures Foreign(Feed(s, input).engine, key)
    ensures Feed(s, input).engine.cfg.bindings == After(s.engine.cfg.bindings, input)
  {
    if input.Lift? && key in WithoutFirst(s.engine.owned, input.key) {
      WithoutFirstIsPart(s.engine.owned, input.key, key);
    }
    if input.Press? && FirstMatch(s.engine.cfg.bindings, input.key, s.engine.Effective(input.hint)).Some? {
      MatchIsNamed(s.engine.cfg.bindings, input.key, s.engine.Effective(input.hint));
    }
  }

  lemma {:induction false} RunKeepsForeign(s: Session, inputs: seq<Input>, key: Key)
    requires Foreign(s.engine, key) && !EverNamed(s.engine.cfg.bindings, inputs, key)
    ensures Foreign(FeedAll(s, inputs).engine, key) && !Names(FeedAll(s, inputs).engine.cfg.bindings, key)
    decreases |inputs|
  {
    if inputs != [] {
      FeedKeepsForeign(s, inputs[0], key);
      RunKeepsForeign(Feed(s, inputs[0]), inputs[1..], key);
    }
  }

  lemma {:induction false} ModifiersAreNeverNamed(bindings: seq<Binding>, inputs: seq<Input>, key: Key)
    requires IsModifier(key) && (forall b <- bindings :: IsBindable(b))
    ensures !EverNamed(bindings, inputs, key)
    decreases |inputs|
  {
    assert forall i :: 0 <= i < |bindings| ==> bindings[i] in bindings;
    if inputs != [] {
      ModifiersAreNeverNamed(After(bindings, inputs[0]), inputs[1..], key);
    }
  }

  /**
   Over every stream of presses, repeats, releases, reloads, expiries and crossings: a modifier, and
   a key no adopted configuration names, is never swallowed, neither its press nor its release.
   */
  lemma {:induction false} UnnamedKeysPassThrough(
      cfg: Section, inputs: seq<Input>, key: Key, hint: Mods, atHome: bool, expired: bool)
    requires IsModifier(key) || !EverNamed(Sanitized(cfg).bindings, inputs, key)
    ensures var e := FeedAll(Start(cfg), inputs).engine;
            e.KeyUp(key).1 == None && e.KeyDown(key, hint, atHome, expired).1 == None
  {
    if IsModifier(key) {
      ModifiersAreNeverNamed(Sanitized(cfg).bindings, inputs, key);
    }
    RunKeepsForeign(Start(cfg), inputs, key);
    var e := FeedAll(Start(cfg), inputs).engine;
    if FirstMatch(e.cfg.bindings, key, e.Effective(hint)).Some? {
      MatchIsNamed(e.cfg.bindings, key, e.Effective(hint));
    }
  }

  // ---------------------------------------------------------------------------
  // Which presses fire
  // ---------------------------------------------------------------------------

  /** The configuration in force after the inputs. */
  function InForce(cfg: Section, inputs: seq<Input>): Section
    decreases |inputs|
  {
    if inputs == [] then cfg
    else InForce(if inputs[0].Reload? then inputs[0].cfg else cfg, inputs[1..])
  }

  /** Is input `k` a press of a key with HID code `a` or `b` while shortcuts are on? */
  predicate Pressed(cfg: Section, inputs: seq<Input>, k: nat, a: Key, b: Key)
    requires k < |inputs|
  {
    InForce(cfg, inputs[..k]).enabled && inputs[k].Press? && (inputs[k].key == a || inputs[k].key == b)
  }

  predicate Lifted(input: Input, a: Key, b: Key) {
    input.Lift? && (input.key == a || input.key == b)
  }

  /** Was a key with HID code `a` or `b` pressed, and none of the two released since? */
  ghost predicate HeldSince(cfg: Section, inputs: seq<Input>, a: Key, b: Key) {
    exists k: nat :: k < |inputs| && Pressed(cfg, inputs, k, a, b) &&
                     forall j :: k < j < |inputs| ==> !Lifted(inputs[j], a, b)
  }

  /** The modifiers the inputs leave held: either key of a class holds it, and releasing either lets go of it. */
  ghost function HeldMods(cfg: Section, inputs: seq<Input>): Mods {
    Mods(HeldSince(cfg, inputs, 0xE0, 0xE4), HeldSince(cfg, inputs, 0xE2, 0xE6),
         HeldSince(cfg, inputs, 0xE1, 0xE5), HeldSince(cfg, inputs, 0xE3, 0xE7))
  }

  lemma {:induction false} InForceOneMore(cfg: Section, inputs: seq<Input>, last: Input)
    ensures InForce(cfg, inputs + [last]) == if last.Reload? then last.cfg else InForce(cfg, inputs)
    decreases |inputs|
  {
    if inputs == [] {
      assert [] + [last] == [last];
    } else {
      assert (inputs + [last])[0] == inputs[0] && (inputs + [last])[1..] == inputs[1..] + [last];
      InForceOneMore(if inputs[0].Reload? then inputs[0].cfg else cfg, inputs[1..], last);
    }
  }

  lemma {:induction false} FeedOneMore(s: Session, inputs: seq<Input>, last: Input)
    ensures FeedAll(s, inputs + [last]) == Feed(FeedAll(s, inputs), last)
    decreases |inputs|
  {
    hide Feed;
    if inputs == [] {
      assert [] + [last] == [last];
    } else {
      assert (inputs + [last])[0] == inputs[0] && (inputs + [last])[1..] == inputs[1..] + [last];
      FeedOneMore(Feed(s, inputs[0]), inputs[1..], last);
    }
  }

  lemma HeldOneMore(cfg: Section, inputs: seq<Input>, last: Input, a: Key, b: Key)
    ensures HeldSince(cfg, inputs + [last], a, b) <==>
              || (InForce(cfg, inputs).enabled && last.Press? && (last.key == a || last.key == b))
              || (HeldSince(cfg, inputs, a, b) && !Lifted(last, a, b))
  {
    var all := inputs + [last];
    var n := |inputs|;
    assert all[..n] == inputs;
    assert forall k: nat | k < n :: all[..k] == inputs[..k] && all[k] == inputs[k];
    assert Pressed(cfg, all, n, a, b) <==>
           InForce(cfg, inputs).enabled && last.Press? && (last.key == a || last.key == b);
    if k: nat :| k < n && Pressed(cfg, inputs, k, a, b) && forall j :: k < j < n ==> !Lifted(inputs[j], a, b) {
      assert Pressed(cfg, all, k, a, b);
    }
    if k: nat :| k < n && Pressed(cfg, all, k, a, b) && forall j :: k < j <= n ==> !Lifted(all[j], a, b) {
      assert Pressed(cfg, inputs, k, a, b) && !Lifted(all[n], a, b);
      assert forall j :: k < j < n ==> inputs[j] == all[j];
    }
  }

  lemma FeedKeepsMods(s: Session, input: Input)
    ensures var e, key := s.engine, if input.Press? || input.Lift? then input.key else 0;
            Feed(s, input).engine.mods ==
            if input.Press? && e.cfg.enabled then e.mods.ApplyKey(key, true)
            else if input.Lift? then e.mods.ApplyKey(key, false)
            else e.mods
    ensures Feed(s, input).engine.cfg == if input.Reload? then Sanitized(input.cfg) else s.engine.cfg
  {
  }

  /**
   The modifiers the engine tracks are those the keyboard holds, as far as it was on to see it: over
   every stream of inputs, a modifier counts as held exactly when one of its two keys was pressed and
   neither has been released since.
   */
  lemma {:induction false} ModifiersAreTracked(cfg: Section, inputs: seq<Input>)
    ensures var e := FeedAll(Start(cfg), inputs).engine;
            e.mods == HeldMods(cfg, inputs) && e.cfg == Sanitized(InForce(cfg, inputs))
    decreases |inputs|
  {
    if inputs != [] {
      var n := |inputs| - 1;
      var before, last := inputs[..n], inputs[n];
      assert inputs == before + [last];
      ModifiersAreTracked(cfg, before);
      FeedOneMore(Start(cfg), before, last);
      InForceOneMore(cfg, before, last);
      HeldOneMore(cfg, before, last, 0xE0, 0xE4);
      HeldOneMore(cfg, before, last, 0xE1, 0xE5);
      HeldOneMore(cfg, before, last, 0xE2, 0xE6);
      HeldOneMore(cfg, before, last, 0xE3, 0xE7);
      FeedKeepsMods(FeedAll(Start(cfg), before), last);
      hide Feed, FeedAll, InForce, HeldSince;
    }
  }

  /**
   May this binding swallow a key? Only with a modifier, or on a key that means nothing by itself:
   Scroll Lock, Pause, F13 to F24. Modifiers and the codes below 4 are no keys to bind.
   */
  predicate Safe(b: Binding) {
    && b.key >= 4 && !(0xE0 <= b.key <= 0xE7)
    && (b.mods != Mods(false, false, false, false) || b.key == 71 || b.key == 72 || 104 <= b.key <= 115)
  }

  /** Binding `i` is the first that may be used, in the file's order, of exactly this chord. */
  predicate FirstOfChord(bindings: seq<Binding>, i: nat, key: Key, mods: Mods) {
    && i < |bindings| && Safe(bindings[i]) && bindings[i].key == key && bindings[i].mods == mods
    && forall j :: 0 <= j < i ==> !(Safe(bindings[j]) && bindings[j].key == key && bindings[j].mods == mods)
  }

  lemma SafeIsBindable(b: Binding)
    ensures Safe(b) <==> IsBindable(b)
  {
  }

  lemma {:induction false} FirstKeptMatch(bindings: seq<Binding>, key: Key, mods: Mods, i: nat)
    requires FirstOfChord(bindings, i, key, mods)
    ensures FirstMatch(Retained(bindings), key, mods) == Some(bindings[i])
  {
    var before, after, kept := bindings[..i], bindings[i + 1..], Retained(bindings);
    var n := |Retained(before)|;
    assert bindings == before + ([bindings[i]] + after);
    RetainedInOrder(before, [bindings[i]] + after);
    RetainedInOrder([bindings[i]], after);
    KeptAlone(bindings[i]);
    hide Retained, FirstMatch;
    assert kept[n] == bindings[i];
    forall j | 0 <= j < n ensures !Matches(kept[j], key, mods) {
      assert kept[j] == Retained(before)[j] && kept[j] in before;
      SafeIsBindable(kept[j]);
    }
    hide Safe, IsBindable;
    var r := FirstMatch(kept, key, mods);
    assert Matches(kept[n], key, mods);
    var k :| 0 <= k < |kept| && kept[k] == r.value && Matches(r.value, key, mods)
             && forall j :: 0 <= j < k ==> !Matches(kept[j], key, mods);
    assert k == n;
  }

  lemma KeptAlone(b: Binding)
    requires Safe(b)
    ensures Retained([b]) == [b]
  {
    SafeIsBindable(b);
    assert [b][..0] == [];
  }

  lemma NoneKeptMatches(bindings: seq<Binding>, key: Key, mods: Mods)
    requires forall b <- bindings :: !(Safe(b) && b.key == key && b.mods == mods)
    ensures FirstMatch(Retained(bindings), key, mods) == None
  {
    forall b ensures Safe(b) <==> IsBindable(b) { SafeIsBindable(b); }
    forall i | 0 <= i < |Retained(bindings)| ensures !Matches(Retained(bindings)[i], key, mods) {
      assert Retained(bindings)[i] in Retained(bindings);
    }
  }

  /** What the user gets for a binding's action. */
  predicate Carries(b: Binding, away: bool, outcome: Outcome) {
    && (outcome.Execute? && outcome.action.SwitchToScreen? <==> b.action == "switch" && |b.screen| > 0)
    && (outcome.Execute? && outcome.action.SwitchToScreen? ==> outcome.action.to == b.screen)
    && (outcome == Execute(SwitchNext) <==> b.action == "cycle")
    && (outcome == Execute(ToggleLock) <==> b.action == "lock")
    && (outcome == Execute(GoHome) <==> b.action == "home" && away)
  }

  lemma PressDoes(e: Engine, now: Section, key: Key, hint: Mods, away: bool, expired: bool)
    requires e.cfg == Sanitized(now) && !(0xE0 <= key <= 0xE7)
    ensures var chord := e.Effective(hint);
            var found := FirstMatch(Retained(now.bindings), key, chord);
            var (next, outcome) := OnLocalKey(e, Down, key, hint, away, expired);
            && (now.enabled && found.Some? ==> next.fired == Some(key) && Carries(found.value, away, outcome))
            && (!now.enabled || found.None? ==> !outcome.Execute?)
            && (now.enabled ==> next.lastSeen == Some(Chord(key, chord)))
  {
    hide FirstMatch, Retained, Engine.Effective;
  }

  /**
   Over every stream of inputs: while shortcuts are on, a press of a key that is no modifier fires the
   first usable binding of exactly the modifiers held (or of the press's own, when none is held), and
   carries out its action. Without such a binding, and while shortcuts are off, nothing is executed.
   */
  lemma PressFiresItsBinding(cfg: Section, inputs: seq<Input>, key: Key, hint: Mods, away: bool, expired: bool)
    requires !(0xE0 <= key <= 0xE7)
    ensures var held, now := HeldMods(cfg, inputs), InForce(cfg, inputs);
            var chord := if held == Mods(false, false, false, false) then hint else held;
            var (next, outcome) := OnLocalKey(FeedAll(Start(cfg), inputs).engine, Down, key, hint, away, expired);
            && (forall i: nat :: now.enabled && FirstOfChord(now.bindings, i, key, chord) ==>
                  next.fired == Some(key) && Carries(now.bindings[i], away, outcome))
            && (!now.enabled || (forall b <- now.bindings :: !(Safe(b) && b.key == key && b.mods == chord)) ==>
                  !outcome.Execute?)
            && (now.enabled ==> next.lastSeen == Some(Chord(key, chord)))
  {
    ModifiersAreTracked(cfg, inputs);
    var e, held, now := FeedAll(Start(cfg), inputs).engine, HeldMods(cfg, inputs), InForce(cfg, inputs);
    var chord := if held == Mods(false, false, false, false) then hint else held;
    PressDoes(e, now, key, hint, away, expired);
    assert e.Effective(hint) == chord;
    hide FeedAll, InForce, HeldMods, HeldSince, Safe, OnLocalKey, Carries, FirstMatch, Retained, Engine.Effective;
    if now.enabled && forall b <- now.bindings :: !(Safe(b) && b.key == key && b.mods == chord) {
      NoneKeptMatches(now.bindings, key, chord);
    }
    forall i: nat | now.enabled && FirstOfChord(now.bindings, i, key, chord)
      ensures FirstMatch(Retained(now.bindings), key, chord) == Some(now.bindings[i])
    {
      FirstKeptMatch(now.bindings, key, chord, i);
    }
  }

  // ---------------------------------------------------------------------------
  // Whose releases are the engine's
  // ---------------------------------------------------------------------------

  /** What a press is to the configuration in force: a chord completed, one started, or nothing. */
  datatype PressKind = Fired | Started | Ignored

  function KindOf(e: Engine, key: Key, hint: Mods): PressKind {
    if !e.cfg.enabled || IsModifier(key) then Ignored
    else if FirstMatch(e.cfg.bindings, key, e.Effective(hint)).Some? then Fired
    else if Names(e.cfg.bindings, key) then Started
    else Ignored
  }

  /** What happened: a press, with whether it led to an action and where the cursor was; a release; a crossing. */
  datatype Entry =
    | Went(key: Key, kind: PressKind, acted: bool, place: Place)
    | CameUp(key: Key)
    | Crossed

  function Note(s: Session, input: Input): seq<Entry> {
    match input
    case Press(key, hint, expired) =>
      var action := s.engine.KeyDown(key, hint, s.place.Home?, expired).1;
      [Went(key, KindOf(s.engine, key, hint), action.Some?, s.place)]
    case Lift(key) => [CameUp(key)]
    case Cross(_) => [Crossed]
    case _ => []
  }

  predicate About(entry: Entry, key: Key) {
    !entry.Crossed? && entry.key == key
  }

  predicate IsDown(log: seq<Entry>, key: Key)
    decreases |log|
  {
    if log == [] then false
    else
      var last := log[|log| - 1];
      if About(last, key) then last.Went? else IsDown(log[..|log| - 1], key)
  }

  /** The press that put a held key down. */
  function PressOf(log: seq<Entry>, key: Key): (r: Entry)
    requires IsDown(log, key)
    ensures r.Went? && r.key == key
    decreases |log|
  {
    var last := log[|log| - 1];
    if About(last, key) then last else PressOf(log[..|log| - 1], key)
  }

  /** Has another chord fired since the held key went down? */
  predicate Overtaken(log: seq<Entry>, key: Key)
    requires IsDown(log, key)
    decreases |log|
  {
    var last := log[|log| - 1];
    !About(last, key) && ((last.Went? && last.kind.Fired?) || Overtaken(log[..|log| - 1], key))
  }

  /** Is the release of a held key the engine's? Its press started a chord, or fired the latest one. */
  predicate Claimed(log: seq<Entry>, key: Key) {
    IsDown(log, key) &&
    (PressOf(log, key).kind.Started? || (PressOf(log, key).kind.Fired? && !Overtaken(log, key)))
  }

  /** On a keyboard a key goes down only when up, and comes up only when down. */
  predicate Legal(log: seq<Entry>, input: Input) {
    match input
    case Press(key, _, _) => !IsDown(log, key)
    case Lift(key) => IsDown(log, key)
    case _ => true
  }

  predicate LegalRun(s: Session, log: seq<Entry>, inputs: seq<Input>)
    decreases |inputs|
  {
    inputs == [] || (Legal(log, inputs[0]) && LegalRun(Feed(s, inputs[0]), log + Note(s, inputs[0]), inputs[1..]))
  }

  function Log(s: Session, log: seq<Entry>, inputs: seq<Input>): seq<Entry>
    decreases |inputs|
  {
    if inputs == [] then log else Log(Feed(s, inputs[0]), log + Note(s, inputs[0]), inputs[1..])
  }

  /** The log of a run from the start. */
  function History(cfg: Section, inputs: seq<Input>): seq<Entry> {
    Log(Start(cfg), [], inputs)
  }

  predicate LegalStream(cfg: Section, inputs: seq<Input>) {
    LegalRun(Start(cfg), [], inputs)
  }

  predicate Distinct(keys: seq<Key>) {
    forall i, j :: 0 <= i < j < |keys| ==> keys[i] != keys[j]
  }

  /** `fired` is the latest fired key if still held; `owned` the held keys that merely start chords. */
  predicate Tracks(e: Engine, log: seq<Entry>, key: Key) {
    && (e.fired == Some(key) <==> IsDown(log, key) && PressOf(log, key).kind.Fired? && !Overtaken(log, key))
    && (key in e.owned <==> IsDown(log, key) && PressOf(log, key).kind.Started?)
    && (IsDown(log, key) && PressOf(log, key).acted ==> PressOf(log, key).kind.Fired?)
    && (e.pending.Some? && e.pending.value.key == key ==>
          e.cfg.enabled && !IsModifier(key) && (IsDown(log, key) ==> key in e.owned))
    && (IsModifier(key) && IsDown(log, key) ==> PressOf(log, key).kind.Ignored?)
  }

  lemma {:induction false} RemovalOfDistinct(keys: seq<Key>, key: Key, k: Key)
    requires Distinct(keys)
    ensures k in WithoutFirst(keys, key) <==> k in keys && k != key
    ensures Distinct(WithoutFirst(keys, key))
    decreases |keys|
  {
    if keys != [] {
      var rest := keys[1..];
      assert keys == [keys[0]] + rest;
      if keys[0] == key {
        assert key !in rest;
      } else {
        RemovalOfDistinct(rest, key, k);
        RemovalOfDistinct(rest, key, keys[0]);
      }
    }
  }

  /** One more entry only changes what the log says about its own key, and whether others are overtaken. */
  lemma {:induction false} Extend(log: seq<Entry>, entry: Entry, key: Key)
    ensures IsDown(log + [entry], key) == if About(entry, key) then entry.Went? else IsDown(log, key)
    ensures IsDown(log + [entry], key) && About(entry, key) ==>
              PressOf(log + [entry], key) == entry && !Overtaken(log + [entry], key)
    ensures IsDown(log + [entry], key) && !About(entry, key) ==>
              && PressOf(log + [entry], key) == PressOf(log, key)
              && (Overtaken(log + [entry], key) <==> (entry.Went? && entry.kind.Fired?) || Overtaken(log, key))
  {
    assert (log + [entry])[..|log + [entry]| - 1] == log;
  }

  lemma {:induction false} PressKeepsTrack(s: Session, log: seq<Entry>, input: Input, key: Key)
    requires Distinct(s.engine.owned) && Legal(log, input) && input.Press?
    requires Tracks(s.engine, log, key) && Tracks(s.engine, log, input.key)
    ensures Tracks(Feed(s, input).engine, log + Note(s, input), key)
    ensures Distinct(Feed(s, input).engine.owned)
  {
    Extend(log, Note(s, input)[0], key);
  }

  lemma {:induction false} LiftKeepsTrack(s: Session, log: seq<Entry>, input: Input, key: Key)
    requires Distinct(s.engine.owned) && Legal(log, input) && input.Lift?
    requires Tracks(s.engine, log, key) && Tracks(s.engine, log, input.key)
    ensures Tracks(Feed(s, input).engine, log + Note(s, input), key)
    ensures Distinct(Feed(s, input).engine.owned)
  {
    Extend(log, CameUp(input.key), key);
    RemovalOfDistinct(s.engine.owned, input.key, key);
    RemovalOfDistinct(s.engine.owned, input.key, input.key);
  }

  lemma {:induction false} StepKeepsTrack(s: Session, log: seq<Entry>, input: Input, key: Key)
    requires Distinct(s.engine.owned) && Legal(log, input) && forall k :: Tracks(s.engine, log, k)
    ensures Tracks(Feed(s, input).engine, log + Note(s, input), key)
    ensures Distinct(Feed(s, input).engine.owned)
  {
    assert Tracks(s.engine, log, key);
    match input {
      case Press(k, _, _) =>
        assert Tracks(s.engine, log, k);
        PressKeepsTrack(s, log, input, key);
      case Lift(k) =>
        assert Tracks(s.engine, log, k);
        LiftKeepsTrack(s, log, input, key);
      case Cross(_) => Extend(log, Crossed, key);
      case _ => assert log + Note(s, input) == log;
    }
  }

  lemma {:induction false} RunKeepsTrack(s: Session, log: seq<Entry>, inputs: seq<Input>)
    requires Distinct(s.engine.owned) && LegalRun(s, log, inputs)
    requires forall key :: Tracks(s.engine, log, key)
    ensures forall key :: Tracks(FeedAll(s, inputs).engine, Log(s, log, inputs), key)
    decreases |inputs|
  {
    if inputs != [] {
      StepKeepsTrack(s, log, inputs[0], 0);
      forall key ensures Tracks(Feed(s, inputs[0]).engine, log + Note(s, inputs[0]), key) {
        StepKeepsTrack(s, log, inputs[0], key);
      }
      RunKeepsTrack(Feed(s, inputs[0]), log + Note(s, inputs[0]), inputs[1..]);
    }
  }

  lemma {:induction false} TrackDecides(e: Engine, log: seq<Entry>, key: Key)
    requires Tracks(e, log, key) && IsDown(log, key)
    ensures e.KeyUp(key).1.Some? <==> Claimed(log, key)
  {
  }

  /**
   On every stream a keyboard can produce, with reloads, expiries and crossings anywhere, the engine
   claims the release of a held key exactly when the configuration in force at the press made it
   start a chord, or complete one that no other chord has overtaken since.
   */
  lemma {:induction false} ReleaseIsClaimedByItsPress(cfg: Section, inputs: seq<Input>, key: Key)
    requires LegalStream(cfg, inputs) && IsDown(History(cfg, inputs), key)
    ensures FeedAll(Start(cfg), inputs).engine.KeyUp(key).1.Some? <==> Claimed(History(cfg, inputs), key)
  {
    RunKeepsTrack(Start(cfg), [], inputs);
    TrackDecides(FeedAll(Start(cfg), inputs).engine, History(cfg, inputs), key);
  }

  /** Under one enabled configuration, the presses it does not ignore are those of the keys its bindings name. */
  lemma {:induction false} OneMoreIgnored(s: Session, log: seq<Entry>, input: Input, key: Key)
    requires s.engine.cfg.enabled && (forall b <- s.engine.cfg.bindings :: IsBindable(b)) && !input.Reload?
    requires IsDown(log, key) ==> (PressOf(log, key).kind.Ignored? <==> !Names(s.engine.cfg.bindings, key))
    ensures Feed(s, input).engine.cfg == s.engine.cfg
    ensures var l := log + Note(s, input);
            IsDown(l, key) ==> (PressOf(l, key).kind.Ignored? <==> !Names(s.engine.cfg.bindings, key))
  {
    var note := Note(s, input);
    if note == [] {
      assert log + note == log;
    } else {
      Extend(log, note[0], key);
    }
    if input.Press? && input.key == key {
      if IsModifier(key) { ModifiersAreNeverNamed(s.engine.cfg.bindings, [], key); }
      if note[0].kind.Fired? { MatchIsNamed(s.engine.cfg.bindings, key, s.engine.Effective(input.hint)); }
    }
  }

  lemma {:induction false} IgnoredIsUnnamed(s: Session, log: seq<Entry>, inputs: seq<Input>, key: Key)
    requires s.engine.cfg.enabled && (forall b <- s.engine.cfg.bindings :: IsBindable(b))
    requires forall i <- inputs :: !i.Reload?
    requires IsDown(log, key) ==> (PressOf(log, key).kind.Ignored? <==> !Names(s.engine.cfg.bindings, key))
    ensures var l := Log(s, log, inputs);
            IsDown(l, key) ==> (PressOf(l, key).kind.Ignored? <==> !Names(s.engine.cfg.bindings, key))
    decreases |inputs|
  {
    hide Feed, Note, Names, IsBindable, PressOf, IsDown;
    if inputs != [] {
      var input := inputs[0];
      assert input in inputs && forall i <- inputs[1..] :: i in inputs;
      OneMoreIgnored(s, log, input, key);
      IgnoredIsUnnamed(Feed(s, input), log + Note(s, input), inputs[1..], key);
    }
  }

  /**
   So under one enabled configuration the claimed releases are those of the named keys, unless the
   key's own press fired a chord and another chord has fired since.
   */
  lemma {:induction false} ReleaseIsClaimedUnlessOvertaken(cfg: Section, inputs: seq<Input>, key: Key)
    requires cfg.enabled && (forall i <- inputs :: !i.Reload?)
    requires LegalStream(cfg, inputs) && IsDown(History(cfg, inputs), key)
    ensures var log := History(cfg, inputs);
            FeedAll(Start(cfg), inputs).engine.KeyUp(key).1.Some? <==>
            Names(Sanitized(cfg).bindings, key) && !(PressOf(log, key).kind.Fired? && Overtaken(log, key))
  {
    ReleaseIsClaimedByItsPress(cfg, inputs, key);
    IgnoredIsUnnamed(Start(cfg), [], inputs, key);
  }

  /** No chord ever fired while a key that had fired one was still down. */
  ghost predicate OneChordAtATime(log: seq<Entry>)
    decreases |log|
  {
    log == [] ||
    (var last, before := log[|log| - 1], log[..|log| - 1];
     && OneChordAtATime(before)
     && (last.Went? && last.kind.Fired? ==> forall k :: IsDown(before, k) ==> !PressOf(before, k).kind.Fired?))
  }

  lemma {:induction false} ThenNoneIsOvertaken(log: seq<Entry>, key: Key)
    requires OneChordAtATime(log) && IsDown(log, key) && PressOf(log, key).kind.Fired?
    ensures !Overtaken(log, key)
    decreases |log|
  {
    if !About(log[|log| - 1], key) {
      ThenNoneIsOvertaken(log[..|log| - 1], key);
    }
  }

  /** And while chords fire one at a time, releases are claimed exactly for the keys bindings name. */
  lemma {:induction false} ReleaseOwnership(cfg: Section, inputs: seq<Input>, key: Key)
    requires cfg.enabled && (forall i <- inputs :: !i.Reload?)
    requires LegalStream(cfg, inputs) && IsDown(History(cfg, inputs), key)
    requires OneChordAtATime(History(cfg, inputs))
    ensures FeedAll(Start(cfg), inputs).engine.KeyUp(key).1.Some? <==> Names(Sanitized(cfg).bindings, key)
  {
    ReleaseIsClaimedUnlessOvertaken(cfg, inputs, key);
    if PressOf(History(cfg, inputs), key).kind.Fired? {
      ThenNoneIsOvertaken(History(cfg, inputs), key);
    }
  }

  // ---------------------------------------------------------------------------
  // What the controlled machine sees of a key
  // ---------------------------------------------------------------------------

  /**
   Some press of the key, made while the cursor was there and leading to no action, has been
   followed by no crossing, and by no release of the key but ones the engine claimed.
   */
  ghost predicate LeftDown(log: seq<Entry>, key: Key) {
    exists i :: 0 <= i < |log| && SentDown(log[i], key) && NeverSentUp(log, key, i)
  }

  predicate SentDown(entry: Entry, key: Key) {
    entry.Went? && entry.key == key && entry.place.There? && !entry.acted
  }

  predicate NeverSentUp(log: seq<Entry>, key: Key, i: nat) {
    forall j :: i < j < |log| ==> !log[j].Crossed? && (log[j] == CameUp(key) ==> Claimed(log[..j], key))
  }

  lemma {:induction false} LeftDownAfter(log: seq<Entry>, entry: Entry, key: Key)
    ensures LeftDown(log + [entry], key) <==>
              SentDown(entry, key) ||
              (LeftDown(log, key) && !entry.Crossed? && (entry == CameUp(key) ==> Claimed(log, key)))
  {
    var longer := log + [entry];
    var n := |log|;
    assert longer[..n] == log && longer[n] == entry;
    assert forall j :: 0 <= j < n ==> longer[j] == log[j] && longer[..j] == log[..j];
    if i :| 0 <= i < n && SentDown(longer[i], key) && NeverSentUp(longer, key, i) {
      assert SentDown(log[i], key) && NeverSentUp(log, key, i);
    }
    if SentDown(entry, key) {
      assert SentDown(longer[n], key) && NeverSentUp(longer, key, n);
    }
    if LeftDown(log, key) && !entry.Crossed? && (entry == CameUp(key) ==> Claimed(log, key)) {
      var i :| 0 <= i < n && SentDown(log[i], key) && NeverSentUp(log, key, i);
      assert SentDown(longer[i], key) && NeverSentUp(longer, key, i);
    }
  }

  /** The client holds what was left down there, and nothing while the cursor is not there. */
  ghost predicate Mirrored(s: Session, log: seq<Entry>, key: Key) {
    (key in s.held <==> LeftDown(log, key)) && (!s.place.There? ==> key !in s.held)
  }

  lemma {:induction false} StepKeepsMirror(s: Session, log: seq<Entry>, input: Input, key: Key)
    requires Mirrored(s, log, key) && Legal(log, input)
    requires input.Lift? ==> (s.engine.KeyUp(input.key).1.Some? <==> Claimed(log, input.key))
    ensures Mirrored(Feed(s, input), log + Note(s, input), key)
  {
    var note := Note(s, input);
    if note == [] {
      assert log + note == log;
    } else {
      LeftDownAfter(log, note[0], key);
    }
  }

  lemma {:induction false} RunKeepsMirror(s: Session, log: seq<Entry>, inputs: seq<Input>, key: Key)
    requires Distinct(s.engine.owned) && LegalRun(s, log, inputs) && Mirrored(s, log, key)
    requires forall k :: Tracks(s.engine, log, k)
    ensures Mirrored(FeedAll(s, inputs), Log(s, log, inputs), key)
    decreases |inputs|
  {
    if inputs != [] {
      var input := inputs[0];
      var next := log + Note(s, input);
      if input.Lift? { TrackDecides(s.engine, log, input.key); }
      StepKeepsMirror(s, log, input, key);
      StepKeepsTrack(s, log, input, key);
      forall k ensures Tracks(Feed(s, input).engine, next, k) { StepKeepsTrack(s, log, input, k); }
      RunKeepsMirror(Feed(s, input), next, inputs[1..], key);
    }
  }

  /**
   On every stream a keyboard can produce, with reloads and crossings anywhere: the controlled
   machine holds a key exactly when it was left down there. In particular, once the key is up on
   the keyboard, the machine is stuck with it exactly when, since control came, it was pressed
   without leading to an action and every release since belonged to the engine.
   */
  lemma {:induction false} KeyStaysDownRemotely(cfg: Section, inputs: seq<Input>, key: Key)
    requires LegalStream(cfg, inputs)
    ensures key in FeedAll(Start(cfg), inputs).held <==> LeftDown(History(cfg, inputs), key)
  {
    assert Start(cfg).held == {} && !LeftDown([], key);
    RunKeepsMirror(Start(cfg), [], inputs, key);
  }

  /**
   A whole press and release during one stay of the cursor, of a key not already stuck: the key
   sticks exactly when the press led to no action and the release is the engine's; and the release
   reaches the machine exactly when it is not.
   */
  lemma {:induction false} KeySticksIff(cfg: Section, before: seq<Input>, press: Input, during: seq<Input>)
    requires press.Press? && LegalStream(cfg, before + [press] + during)
    requires FeedAll(Start(cfg), before).place.There? && press.key !in FeedAll(Start(cfg), before).held
    requires forall i <- during :: !i.Cross? && (i.Press? || i.Lift? ==> i.key != press.key)
    ensures var key, log := press.key, History(cfg, before + [press] + during);
            var s := FeedAll(Start(cfg), before + [press] + during);
            && IsDown(log, key)
            && (key in Feed(s, Lift(key)).held <==> !PressOf(log, key).acted && Claimed(log, key))
            && (OnLocalKey(s.engine, Up, key, NO_MODS, true, false).1 == Forward(Up, key) <==> !Claimed(log, key))
  {
    var key := press.key;
    var s, log := FeedAll(Start(cfg), before), History(cfg, before);
    assert before + [press] + during == before + ([press] + during);
    RunSplits(Start(cfg), [], before, [press] + during);
    assert ([press] + during)[0] == press && ([press] + during)[1..] == during;
    var t, next := Feed(s, press), log + Note(s, press);
    Extend(log, Note(s, press)[0], key);
    assert t.place.There? && (key in t.held <==> !PressOf(next, key).acted);
    Untouched(t, next, during, key);
    ReleaseIsClaimedByItsPress(cfg, before + [press] + during, key);
  }

  lemma {:induction false} RunSplits(s: Session, log: seq<Entry>, first: seq<Input>, second: seq<Input>)
    ensures FeedAll(s, first + second) == FeedAll(FeedAll(s, first), second)
    ensures Log(s, log, first + second) == Log(FeedAll(s, first), Log(s, log, first), second)
    decreases |first|
  {
    if first == [] {
      assert first + second == second;
    } else {
      assert (first + second)[0] == first[0] && (first + second)[1..] == first[1..] + second;
      RunSplits(Feed(s, first[0]), log + Note(s, first[0]), first[1..], second);
    }
  }

  /** Inputs about other keys, within one stay, change neither the key's press nor whether it is held there. */
  lemma {:induction false} Untouched(s: Session, log: seq<Entry>, inputs: seq<Input>, key: Key)
    requires IsDown(log, key)
    requires forall i <- inputs :: !i.Cross? && (i.Press? || i.Lift? ==> i.key != key)
    ensures var l, t := Log(s, log, inputs), FeedAll(s, inputs);
            && IsDown(l, key) && PressOf(l, key) == PressOf(log, key)
            && t.place == s.place && (key in t.held <==> key in s.held)
    decreases |inputs|
  {
    if inputs != [] {
      var input, note := inputs[0], Note(s, inputs[0]);
      assert input in inputs && forall i <- inputs[1..] :: i in inputs;
      if note == [] {
        assert log + note == log;
      } else {
        Extend(log, note[0], key);
      }
      Untouched(Feed(s, input), log + note, inputs[1..], key);
    }
  }

  /** A key no adopted configuration names, and a modifier, is held there only while it is held here. */
  lemma {:induction false} UnnamedKeysComeUp(cfg: Section, inputs: seq<Input>, key: Key)
    requires LegalStream(cfg, inputs)
    requires IsModifier(key) || !EverNamed(Sanitized(cfg).bindings, inputs, key)
    ensures key in FeedAll(Start(cfg), inputs).held ==> IsDown(History(cfg, inputs), key)
  {
    if IsModifier(key) { ModifiersAreNeverNamed(Sanitized(cfg).bindings, inputs, key); }
    ForeignKeysComeUp(Start(cfg), [], inputs, key);
  }

  lemma {:induction false} ForeignKeysComeUp(s: Session, log: seq<Entry>, inputs: seq<Input>, key: Key)
    requires Foreign(s.engine, key) && !EverNamed(s.engine.cfg.bindings, inputs, key)
    requires LegalRun(s, log, inputs) && (key in s.held ==> s.place.There? && IsDown(log, key))
    ensures key in FeedAll(s, inputs).held ==> IsDown(Log(s, log, inputs), key)
    decreases |inputs|
  {
    if inputs != [] {
      var input, note := inputs[0], Note(s, inputs[0]);
      FeedKeepsForeign(s, input, key);
      if note == [] {
        assert log + note == log;
      } else {
        Extend(log, note[0], key);
      }
      ForeignKeysComeUp(Feed(s, input), log + note, inputs[1..], key);
    }
  }

  lemma {:induction false} SafeBindingsAreKept(bindings: seq<Binding>)
    requires forall b <- bindings :: IsBindable(b)
    ensures Retained(bindings) == bindings
    decreases |bindings|
  {
    if bindings != [] {
      var n := |bindings| - 1;
      SafeBindingsAreKept(bindings[..n]);
      assert bindings == bindings[..n] + [bindings[n]];
    }
  }

  const LOCK_CHORD := Binding(Mods(true, false, false, false), 0x04, "lock", "")

  /** Ctrl+A locks; a bare A typed on the other machine goes down there and never comes up. */
  lemma {:induction false} BareLetterSticks()
    ensures var start := Start(Section(true, [LOCK_CHORD]));
            var there := Feed(start, Cross(There));
            var pressed := Feed(there, Press(0x04, NO_MODS, false));
            pressed.held == {0x04} && Feed(pressed, Lift(0x04)).held == {0x04}
  {
    SafeBindingsAreKept([LOCK_CHORD]);
    assert Names([LOCK_CHORD], 0x04) by { assert [LOCK_CHORD][0].key == 0x04; }
  }

  const LOCK_KEY := Binding(NO_MODS, 0x68, "lock", "")
  const CYCLE_KEY := Binding(NO_MODS, 0x69, "cycle", "")

  lemma {:induction false} BothMatch()
    ensures FirstMatch([LOCK_KEY, CYCLE_KEY], 0x68, NO_MODS) == Some(LOCK_KEY)
    ensures FirstMatch([LOCK_KEY, CYCLE_KEY], 0x69, NO_MODS) == Some(CYCLE_KEY)
  {
    assert [LOCK_KEY, CYCLE_KEY][1..] == [CYCLE_KEY];
  }

  /** Two chords at once: the first key's release reaches the other machine though its press did not. */
  lemma {:induction false} OvertakenReleaseLeaks()
    ensures var e := Fresh(Section(true, [LOCK_KEY, CYCLE_KEY]));
            var (one, first) := OnLocalKey(e, Down, 0x68, NO_MODS, true, false);
            var (two, second) := OnLocalKey(one, Down, 0x69, NO_MODS, true, false);
            && first == Execute(ToggleLock) && second == Execute(SwitchNext)
            && OnLocalKey(two, Up, 0x68, NO_MODS, true, false).1 == Forward(Up, 0x68)
  {
    SafeBindingsAreKept([LOCK_KEY, CYCLE_KEY]);
    BothMatch();
  }
}
