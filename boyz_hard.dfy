/** The hard-coded levels of Soldier Boyz: the routine table, the scene-state
    checks that route between the hotel and chapter-3 levels, the territory
    restart table, and the decisions taken by the name, difficulty and retry
    menus. */
module BoyzHard {

  datatype Result<+T> = Ok(value: T) | Err(error: Error) {
    predicate IsFailure() { Err? }
    function PropagateFailure<U>(): Result<U> requires Err? { Err(error) }
    function Extract(): T requires Ok? { value }
  }

  /** The conditions under which the source stops with error(). */
  datatype Error =
    | InvalidHardcodedLevel(name: string)
    | InvalidTerritory(level: string)

  // ---------------------------------------------------------------------------
  // The routine table

  datatype Routine = MainMenu | DifficultyMenu | RetryMenu | CheckC3 | CheckHo | Credits

  function RoutineName(routine: Routine): string {
    match routine
    case MainMenu => "<main_menu>"
    case DifficultyMenu => "<difficulty_menu>"
    case RetryMenu => "<retry_menu>"
    case CheckC3 => "<check_c3>"
    case CheckHo => "<check_ho>"
    case Credits => "<credits>"
  }

  /** The routine a hard-coded level's name selects; any other name is an
      error. */
  function RoutineFor(name: string): (r: Result<Routine>)
    ensures r.Ok? ==> RoutineName(r.value) == name
    ensures r.Err? ==> r.error == InvalidHardcodedLevel(name)
  {
    if name == "<main_menu>" then Ok(MainMenu)
    else if name == "<difficulty_menu>" then Ok(DifficultyMenu)
    else if name == "<retry_menu>" then Ok(RetryMenu)
    else if name == "<check_c3>" then Ok(CheckC3)
    else if name == "<check_ho>" then Ok(CheckHo)
    else if name == "<credits>" then Ok(Credits)
    else Err(InvalidHardcodedLevel(name))
  }

  /** Every routine is reached through its own name, so the table is a
      bijection between the six names and the six routines. */
  lemma RoutineForName(routine: Routine)
    ensures RoutineFor(RoutineName(routine)) == Ok(routine)
  {
    match routine
    case MainMenu =>
    case DifficultyMenu =>
    case RetryMenu =>
    case CheckC3 =>
    case CheckHo =>
    case Credits =>
  }

  /** A name selects a routine exactly when it is one of the six names. */
  lemma RoutineForAccepts(name: string)
    ensures RoutineFor(name).Ok? <==> exists routine :: RoutineName(routine) == name
  {
    if exists routine :: RoutineName(routine) == name {
      var routine :| RoutineName(routine) == name;
      RoutineForName(routine);
    }
  }

  // ---------------------------------------------------------------------------
  // Territories

  predicate IsDigit(c: char) {
    '0' <= c <= '9'
  }

  /** `level` matches the pattern "c<t>#.mi_", where # stands for one
      decimal digit. */
  predicate InTerritory(level: string, t: char) {
    |level| == 7 && level[0] == 'c' && level[1] == t && IsDigit(level[2]) && level[3..] == ".mi_"
  }

  /** The first level of the territory a level belongs to: the level a team
      restarts from. */
  function FirstLevelTerritory(level: string): (r: Result<string>)
    ensures r.Ok? <==> exists t :: t in "12345" && InTerritory(level, t)
    ensures r.Ok? ==> InTerritory(r.value, level[1])
    ensures r.Err? ==> r.error == InvalidTerritory(level)
  {
    if InTerritory(level, '1') then Ok("c19.mi_")
    else if InTerritory(level, '2') then Ok("c21.mi_")
    else if InTerritory(level, '3') then Ok("c31.mi_")
    else if InTerritory(level, '4') then Ok("c41.mi_")
    else if InTerritory(level, '5') then Ok("c51.mi_")
    else Err(InvalidTerritory(level))
  }

  /** Restarting from a territory's first level, and restarting again from
      there, lands on the same level. */
  lemma FirstLevelTerritoryIdempotent(level: string)
    requires FirstLevelTerritory(level).Ok?
    ensures FirstLevelTerritory(FirstLevelTerritory(level).value) == FirstLevelTerritory(level)
  {
    var first := FirstLevelTerritory(level).value;
    assert InTerritory(first, level[1]);
  }

  // ---------------------------------------------------------------------------
  // Scene-state checks

  /** The value a scene-state lookup yields: 0 for a flag never set. */
  function Flag(state: map<string, int>, key: string): int {
    if key in state then state[key] else 0
  }

  /** Reads the flags in order, as a chain of `&&` over a map whose lookup
      inserts 0 for a missing key, stopping at the first flag that is unset.
      Yields whether all are set, and the map with the keys read. */
  function Probe(state: map<string, int>, keys: seq<string>): (r: (bool, map<string, int>))
    ensures r.0 <==> forall i :: 0 <= i < |keys| ==> Flag(state, keys[i]) != 0
    ensures forall k :: k in state ==> k in r.1 && r.1[k] == state[k]
    ensures forall k :: k in r.1 && k !in state ==> k in keys && r.1[k] == 0
    ensures r.0 ==> forall i :: 0 <= i < |keys| ==> keys[i] in r.1
    ensures forall k :: Flag(r.1, k) == Flag(state, k)
    decreases |keys|
  {
    if |keys| == 0 then (true, state)
    else
      var v := Flag(state, keys[0]);
      if v == 0 then (false, state[keys[0] := 0])
      else
        var rest := Probe(state, keys[1..]);
        assert forall i :: 1 <= i < |keys| ==> keys[i] == keys[1..][i - 1];
        rest
  }

  const C3Flags: seq<string> := ["GS_SEQ_31", "GS_SEQ_32", "GS_SEQ_33", "GS_SEQ_34", "GS_HOTELDONE"]
  const HotelFlags: seq<string> := ["GS_SEQ_351", "GS_SEQ_352", "GS_SEQ_353", "GS_SEQ_354", "GS_SEQ_355"]

  /** The profile slot each check saves to. */
  const C3SaveSlot := 3591
  const HotelSaveSlot := 3592

  /** <check_c3>: the chapter-3 finale once its four sequences and the hotel
      are done; the chapter-3 selection otherwise. */
  function CheckC3Route(state: map<string, int>): (r: (string, map<string, int>))
    ensures r.0 == "c36.mi_" <==> forall i :: 0 <= i < |C3Flags| ==> Flag(state, C3Flags[i]) != 0
    ensures r.0 in {"c36.mi_", "<select_c3>"}
    ensures forall k :: Flag(r.1, k) == Flag(state, k)
  {
    var (done, probed) := Probe(state, C3Flags);
    (if done then "c36.mi_" else "<select_c3>", probed)
  }

  /** <check_ho>: once the five hotel sequences are done, the hotel is marked
      done and chapter 3 is checked next; otherwise back to the hotel
      selection, with no flag changed. */
  function CheckHoRoute(state: map<string, int>): (r: (string, map<string, int>))
    ensures var done := forall i :: 0 <= i < |HotelFlags| ==> Flag(state, HotelFlags[i]) != 0;
      && (done ==> r.0 == "<check_c3>" && Flag(r.1, "GS_HOTELDONE") == 1)
      && (!done ==> r.0 == "<select_ho>" && forall k :: Flag(r.1, k) == Flag(state, k))
    ensures forall k :: k != "GS_HOTELDONE" ==> Flag(r.1, k) == Flag(state, k)
  {
    var (done, probed) := Probe(state, HotelFlags);
    if done then ("<check_c3>", probed["GS_HOTELDONE" := 1]) else ("<select_ho>", probed)
  }

  /** Finishing the hotel leads, through <check_c3>, to the chapter-3 finale
      exactly when the four chapter-3 sequences are done. */
  lemma HotelThenC3(state: map<string, int>)
    requires CheckHoRoute(state).0 == "<check_c3>"
    ensures var after := CheckHoRoute(state).1;
      CheckC3Route(after).0 == "c36.mi_" <==> forall i :: 0 <= i < 4 ==> Flag(state, C3Flags[i]) != 0
  {
    var after := CheckHoRoute(state).1;
    assert Flag(after, "GS_HOTELDONE") == 1;
    forall i | 0 <= i < 4
      ensures Flag(after, C3Flags[i]) == Flag(state, C3Flags[i])
    {
      assert C3Flags[i] != "GS_HOTELDONE";
    }
    assert C3Flags[4] == "GS_HOTELDONE";
  }

  // ---------------------------------------------------------------------------
  // Menu input

  /** The screen regions a menu reacts to; which one holds the mouse is
      decided outside the model. */
  datatype Box =
    | ChumpBox | PunkBox | BadAssBox | CancelBox
    | RetryMissionBox | RestartTerritoryBox | QuitBox
    | NoBox

  /** One polled event: a key press (by keycode), a left click, or anything
      else. */
  datatype Event = KeyDown(key: int) | Click(box: Box) | OtherEvent

  const KeyBackspace := 8
  const KeyReturn := 13

  predicate IsAlpha(key: int) {
    'A' as int <= key <= 'Z' as int || 'a' as int <= key <= 'z' as int
  }

  // ---------------------------------------------------------------------------
  // Name entry

  /** One event of the name prompt: backspace deletes the last character,
      Return ends the prompt once a name has been typed, and a letter key
      appends its code less 32 (the capital of a lower-case key). */
  function NameEvent(name: string, waiting: bool, ev: Event): (r: (string, bool))
    ensures r.1 != waiting ==> waiting && ev == KeyDown(KeyReturn) && |name| > 0 && r.0 == name
    ensures |r.0| <= |name| + 1
  {
    if !ev.KeyDown? then (name, waiting)
    else if ev.key == KeyBackspace then (if |name| == 0 then name else name[..|name| - 1], waiting)
    else if ev.key == KeyReturn && |name| > 0 then (name, false)
    else if IsAlpha(ev.key) then (name + [(ev.key - 32) as char], waiting)
    else (name, waiting)
  }

  /** A menu polls the pending events in batches: every event of a batch is
      handled, in order, even after one has ended the prompt; the prompt is
      only checked between batches. `step` handles one event given whether
      the prompt is still waiting. */
  function Drain<S>(step: (S, bool, Event) -> (S, bool), s: S, waiting: bool, evs: seq<Event>): (S, bool)
    decreases |evs|
  {
    if |evs| == 0 then (s, waiting)
    else
      var prior := Drain(step, s, waiting, evs[..|evs| - 1]);
      step(prior.0, prior.1, evs[|evs| - 1])
  }

  /** Batch after batch, until a batch has ended the prompt; the second
      component tells whether the prompt was still waiting when the batches
      ran out. */
  function Poll<S>(step: (S, bool, Event) -> (S, bool), s: S, batches: seq<seq<Event>>): (S, bool)
    decreases |batches|
  {
    if |batches| == 0 then (s, true)
    else
      var after := Drain(step, s, true, batches[0]);
      if after.1 then Poll(step, after.0, batches[1..]) else after
  }

  lemma {:induction false} DrainAppend<S>(step: (S, bool, Event) -> (S, bool), s: S, waiting: bool, a: seq<Event>, b: seq<Event>)
    ensures Drain(step, s, waiting, a + b) ==
      var mid := Drain(step, s, waiting, a); Drain(step, mid.0, mid.1, b)
    decreases |b|
  {
    if |b| == 0 {
      assert a + b == a;
    } else {
      assert (a + b)[..|a + b| - 1] == a + b[..|b| - 1];
      DrainAppend(step, s, waiting, a, b[..|b| - 1]);
    }
  }

  /** A property every event keeps holds after any number of batches. */
  lemma {:induction false} PollKeeps<S>(step: (S, bool, Event) -> (S, bool), inv: S -> bool, s: S, batches: seq<seq<Event>>)
    requires forall x, w, ev {:trigger step(x, w, ev)} :: inv(x) ==> inv(step(x, w, ev).0)
    requires inv(s)
    ensures inv(Poll(step, s, batches).0)
    decreases |batches|
  {
    if |batches| > 0 {
      DrainKeeps(step, inv, s, true, batches[0]);
      PollKeeps(step, inv, Drain(step, s, true, batches[0]).0, batches[1..]);
    }
  }

  lemma {:induction false} DrainKeeps<S>(step: (S, bool, Event) -> (S, bool), inv: S -> bool, s: S, waiting: bool, evs: seq<Event>)
    requires forall x, w, ev {:trigger step(x, w, ev)} :: inv(x) ==> inv(step(x, w, ev).0)
    requires inv(s)
    ensures inv(Drain(step, s, waiting, evs).0)
    decreases |evs|
  {
    if |evs| > 0 {
      DrainKeeps(step, inv, s, waiting, evs[..|evs| - 1]);
      var prior := Drain(step, s, waiting, evs[..|evs| - 1]);
      StepKeeps(step, inv, prior.0, prior.1, evs[|evs| - 1]);
    }
  }

  lemma StepKeeps<S>(step: (S, bool, Event) -> (S, bool), inv: S -> bool, x: S, waiting: bool, ev: Event)
    requires forall x, w, ev {:trigger step(x, w, ev)} :: inv(x) ==> inv(step(x, w, ev).0)
    requires inv(x)
    ensures inv(step(x, waiting, ev).0)
  {
  }

  predicate IsLower(w: string) {
    forall i :: 0 <= i < |w| ==> 'a' <= w[i] <= 'z'
  }

  function Capitals(w: string): (u: string)
    requires IsLower(w)
    ensures |u| == |w|
    ensures forall i :: 0 <= i < |w| ==> u[i] as int == w[i] as int - 32
  {
    if |w| == 0 then [] else Capitals(w[..|w| - 1]) + [(w[|w| - 1] as int - 32) as char]
  }

  function Typing(w: string): (evs: seq<Event>)
    ensures |evs| == |w|
    ensures forall i :: 0 <= i < |w| ==> evs[i] == KeyDown(w[i] as int)
  {
    if |w| == 0 then [] else Typing(w[..|w| - 1]) + [KeyDown(w[|w| - 1] as int)]
  }

  function Backspaces(n: nat): (evs: seq<Event>)
    ensures |evs| == n
    ensures forall i :: 0 <= i < n ==> evs[i] == KeyDown(KeyBackspace)
  {
    if n == 0 then [] else Backspaces(n - 1) + [KeyDown(KeyBackspace)]
  }

  /** Typing a lower-case word appends its capitals. */
  lemma {:induction false} TypingAppendsCapitals(name: string, waiting: bool, w: string)
    requires IsLower(w)
    ensures Drain(NameEvent, name, waiting, Typing(w)) == (name + Capitals(w), waiting)
    decreases |w|
  {
    if |w| > 0 {
      var v := w[..|w| - 1];
      var key := w[|w| - 1] as int;
      assert IsLower(v);
      assert Typing(w)[..|w| - 1] == Typing(v);
      TypingAppendsCapitals(name, waiting, v);
      var prior := Drain(NameEvent, name, waiting, Typing(v));
      assert Typing(w)[|w| - 1] == KeyDown(key);
      assert Drain(NameEvent, name, waiting, Typing(w)) == NameEvent(prior.0, prior.1, KeyDown(key));
      assert IsAlpha(key) && key != KeyBackspace && key != KeyReturn;
      assert NameEvent(name + Capitals(v), waiting, KeyDown(key)) == (name + Capitals(v) + [(key - 32) as char], waiting);
      assert Capitals(w) == Capitals(v) + [(key - 32) as char];
      assert name + Capitals(v) + [(key - 32) as char] == name + Capitals(w);
    } else {
      assert name + Capitals(w) == name;
    }
  }

  /** As many backspaces as characters typed undo the typing. */
  lemma {:induction false} BackspacesUndo(name: string, waiting: bool, u: string)
    ensures Drain(NameEvent, name + u, waiting, Backspaces(|u|)) == (name, waiting)
    decreases |u|
  {
    if |u| > 0 {
      var v := u[..|u| - 1];
      // the first backspace removes u's last character
      DrainAppend(NameEvent, name + u, waiting, [KeyDown(KeyBackspace)], Backspaces(|v|));
      assert Backspaces(|u|) == [KeyDown(KeyBackspace)] + Backspaces(|v|);
      assert Drain(NameEvent, name + u, waiting, [KeyDown(KeyBackspace)]) == (name + v, waiting) by {
        assert [KeyDown(KeyBackspace)][..0] == [];
        assert (name + u)[..|name + u| - 1] == name + v;
      }
      BackspacesUndo(name, waiting, v);
      var first := Drain(NameEvent, name + u, waiting, [KeyDown(KeyBackspace)]);
      assert Drain(NameEvent, name + u, waiting, Backspaces(|u|)) == Drain(NameEvent, first.0, first.1, Backspaces(|v|));
      assert Drain(NameEvent, name + u, waiting, Backspaces(|u|)) == Drain(NameEvent, name + v, waiting, Backspaces(|v|));
    } else {
      assert name + u == name;
    }
  }

  /** The entered name is looked up in lower case. */
  function Lowercase(name: string): (r: string)
    ensures |r| == |name|
    ensures forall i :: 0 <= i < |name| ==> r[i] == if 'A' <= name[i] <= 'Z' then (name[i] as int + 32) as char else name[i]
  {
    if |name| == 0 then [] else Lowercase(name[..|name| - 1]) + [LowerChar(name[|name| - 1])]
  }

  function LowerChar(c: char): char {
    if 'A' <= c <= 'Z' then (c as int + 32) as char else c
  }

  /** Lower-casing the capitals of a lower-case word gives the word back. */
  lemma LowercaseCapitals(w: string)
    requires IsLower(w)
    ensures Lowercase(Capitals(w)) == w
  {
    var u := Capitals(w);
    forall i | 0 <= i < |w|
      ensures Lowercase(u)[i] == w[i]
    {
      var k := w[i] as int;
      assert 'a' as int <= k <= 'z' as int;
      assert u[i] as int == k - 32;
      assert 'A' <= u[i] <= 'Z';
      assert Lowercase(u)[i] == (u[i] as int + 32) as char;
    }
  }

  /** Typing a lower-case word at the name prompt and pressing Return
      confirms the word itself as the profile name: the capitals the prompt
      shows fold back to the keys typed. */
  lemma {:induction false} TypedNameIsProfile(w: string)
    requires IsLower(w) && |w| > 0
    ensures var entry := Poll(NameEvent, "", [Typing(w) + [KeyDown(KeyReturn)]]);
      !entry.1 && Lowercase(entry.0) == w
  {
    var typed := Typing(w) + [KeyDown(KeyReturn)];
    TypingAppendsCapitals("", true, w);
    DrainAppend(NameEvent, "", true, Typing(w), [KeyDown(KeyReturn)]);
    assert "" + Capitals(w) == Capitals(w);
    assert [KeyDown(KeyReturn)][..0] == [];
    assert Drain(NameEvent, Capitals(w), true, [KeyDown(KeyReturn)]) == (Capitals(w), false);
    assert Drain(NameEvent, "", true, typed) == (Capitals(w), false);
    assert Poll(NameEvent, "", [typed]) == (Capitals(w), false) by {
      assert [typed][0] == typed;
    }
    LowercaseCapitals(w);
  }

  // ---------------------------------------------------------------------------
  // Difficulty

  /** One event of the difficulty menu: c, p and b (or a click on their
      boxes) pick a difficulty and a (or the cancel box) leaves it unset;
      each of these ends the prompt. */
  function DifficultyEvent(difficulty: string, waiting: bool, ev: Event): (r: (string, bool))
    ensures ev in {KeyDown('c' as int), Click(ChumpBox)} ==> r == ("chump", false)
    ensures ev in {KeyDown('p' as int), Click(PunkBox)} ==> r == ("punk", false)
    ensures ev in {KeyDown('b' as int), Click(BadAssBox)} ==> r == ("bad ass", false)
    ensures ev in {KeyDown('a' as int), Click(CancelBox)} ==> r == (difficulty, false)
    ensures !DecidesDifficulty(ev) ==> r == (difficulty, waiting)
  {
    match ev
    case Click(box) =>
      if box == ChumpBox then ("chump", false)
      else if box == PunkBox then ("punk", false)
      else if box == BadAssBox then ("bad ass", false)
      else if box == CancelBox then (difficulty, false)
      else (difficulty, waiting)
    case KeyDown(key) =>
      if key == 'c' as int then ("chump", false)
      else if key == 'p' as int then ("punk", false)
      else if key == 'b' as int then ("bad ass", false)
      else if key == 'a' as int then (difficulty, false)
      else (difficulty, waiting)
    case OtherEvent => (difficulty, waiting)
  }

  /** The events that end the difficulty prompt. */
  predicate DecidesDifficulty(ev: Event) {
    ev in {KeyDown('c' as int), KeyDown('p' as int), KeyDown('b' as int), KeyDown('a' as int),
           Click(ChumpBox), Click(PunkBox), Click(BadAssBox), Click(CancelBox)}
  }

  predicate IsDifficulty(difficulty: string) {
    difficulty in {"", "chump", "punk", "bad ass"}
  }

  /** Whatever is pressed, the menu leaves no difficulty or one of the three. */
  lemma DifficultyChosen(batches: seq<seq<Event>>)
    ensures IsDifficulty(Poll(DifficultyEvent, "", batches).0)
  {
    PollKeeps(DifficultyEvent, IsDifficulty, "", batches);
  }

  /** A batch made of one deciding event ends the menu with that event's
      decision; the batches after it are never polled. */
  lemma DifficultyDecides(ev: Event, rest: seq<seq<Event>>)
    requires DecidesDifficulty(ev)
    ensures Poll(DifficultyEvent, "", [[ev]] + rest) == DifficultyEvent("", true, ev)
    ensures !Poll(DifficultyEvent, "", [[ev]] + rest).1
  {
    assert ([[ev]] + rest)[0] == [ev];
    assert [ev][..0] == [];
    assert Drain(DifficultyEvent, "", true, [ev]) == DifficultyEvent("", true, ev);
  }

  // ---------------------------------------------------------------------------
  // Retry

  /** What the retry menu decides: the next level, the team's health, and
      whether the game was asked to quit. */
  datatype RetryState = RetryState(nextLevel: string, health: int, quit: bool)

  /** One event of the retry menu: s (or its box) retries from the
      checkpoint; t (or its box) restores the team's health and restarts the
      checkpoint's territory; q (or its box) asks the game to quit, which
      ends the polling after this batch just as a choice does. */
  function RetryEvent(checkpoint: string, maxHealth: int, st: Result<RetryState>, waiting: bool, ev: Event): (r: (Result<RetryState>, bool))
    ensures st.Err? ==> r.0 == st
    ensures st.Ok? && ev in {KeyDown('s' as int), Click(RetryMissionBox)} ==>
      r == (Ok(st.value.(nextLevel := checkpoint)), false)
    ensures st.Ok? && ev in {KeyDown('t' as int), Click(RestartTerritoryBox)} ==>
      && !r.1
      && (FirstLevelTerritory(checkpoint).Ok? ==>
            r.0 == Ok(st.value.(health := maxHealth, nextLevel := FirstLevelTerritory(checkpoint).value)))
      && (FirstLevelTerritory(checkpoint).Err? ==> r.0 == Err(InvalidTerritory(checkpoint)))
    ensures st.Ok? && ev in {KeyDown('q' as int), Click(QuitBox)} ==> r == (Ok(st.value.(quit := true)), false)
    ensures st.Ok? && !DecidesRetry(ev) ==> r == (st, waiting)
  {
    if st.Err? then (st, false)
    else
      var retry := ev == KeyDown('s' as int) || ev == Click(RetryMissionBox);
      var restart := ev == KeyDown('t' as int) || ev == Click(RestartTerritoryBox);
      var quit := ev == KeyDown('q' as int) || ev == Click(QuitBox);
      if retry then (Ok(st.value.(nextLevel := checkpoint)), false)
      else if restart then
        match FirstLevelTerritory(checkpoint)
        case Ok(first) => (Ok(st.value.(health := maxHealth, nextLevel := first)), false)
        case Err(e) => (Err(e), false)
      else if quit then (Ok(st.value.(quit := true)), false)
      else (st, waiting)
  }

  /** The events that end the retry prompt. */
  predicate DecidesRetry(ev: Event) {
    ev in {KeyDown('s' as int), KeyDown('t' as int), KeyDown('q' as int),
           Click(RetryMissionBox), Click(RestartTerritoryBox), Click(QuitBox)}
  }

  function RetryStep(checkpoint: string, maxHealth: int): (Result<RetryState>, bool, Event) -> (Result<RetryState>, bool) {
    (st, waiting, ev) => RetryEvent(checkpoint, maxHealth, st, waiting, ev)
  }

  /** The choices the retry menu can end with. */
  ghost predicate RetryOutcome(checkpoint: string, maxHealth: int, start: RetryState, st: Result<RetryState>) {
    match st
    case Err(e) => e == InvalidTerritory(checkpoint) && FirstLevelTerritory(checkpoint).Err?
    case Ok(s) =>
      && (s.health == start.health || s.health == maxHealth)
      && (s.nextLevel == start.nextLevel || s.nextLevel == checkpoint ||
          (FirstLevelTerritory(checkpoint).Ok? && s.nextLevel == FirstLevelTerritory(checkpoint).value))
      && (start.quit ==> s.quit)
  }

  /** However the menu is used, it only ever retries the checkpoint, restarts
      its territory with full health, or quits; it fails only when the
      checkpoint is in no territory. */
  lemma RetryChoices(checkpoint: string, maxHealth: int, start: RetryState, batches: seq<seq<Event>>)
    ensures RetryOutcome(checkpoint, maxHealth, start, Poll(RetryStep(checkpoint, maxHealth), Ok(start), batches).0)
  {
    var step := RetryStep(checkpoint, maxHealth);
    var inv := st => RetryOutcome(checkpoint, maxHealth, start, st);
    forall x, w, ev | inv(x) ensures inv(step(x, w, ev).0) {
      assert step(x, w, ev) == RetryEvent(checkpoint, maxHealth, x, w, ev);
    }
    PollKeeps(step, inv, Ok(start), batches);
  }

  /** The decision the retry menu reaches from `start`: when the game is
      already quitting no event is polled. */
  function RetryDecision(checkpoint: string, maxHealth: int, start: RetryState, batches: seq<seq<Event>>): Result<RetryState> {
    if start.quit then Ok(start) else Poll(RetryStep(checkpoint, maxHealth), Ok(start), batches).0
  }

  /** A batch made of one deciding event settles the menu with that event's
      decision; the batches after it are never polled. */
  lemma RetryDecides(checkpoint: string, maxHealth: int, start: RetryState, ev: Event, rest: seq<seq<Event>>)
    requires !start.quit && DecidesRetry(ev)
    ensures RetryDecision(checkpoint, maxHealth, start, [[ev]] + rest) == RetryEvent(checkpoint, maxHealth, Ok(start), true, ev).0
  {
    var step := RetryStep(checkpoint, maxHealth);
    assert ([[ev]] + rest)[0] == [ev];
    assert [ev][..0] == [];
    assert Drain(step, Ok(start), true, [ev]) == RetryEvent(checkpoint, maxHealth, Ok(start), true, ev);
  }

  /** Once the retry menu has failed, the rest of the events change nothing. */
  lemma {:induction false} DrainAfterFailure(checkpoint: string, maxHealth: int, e: Error, waiting: bool, evs: seq<Event>)
    ensures Drain(RetryStep(checkpoint, maxHealth), Err(e), waiting, evs) == (Err(e), |evs| == 0 && waiting)
    decreases |evs|
  {
    if |evs| > 0 {
      DrainAfterFailure(checkpoint, maxHealth, e, waiting, evs[..|evs| - 1]);
    }
  }

  // ---------------------------------------------------------------------------
  // The engine

  /** A hard-coded level: its routine name and the level that follows it. */
  datatype Code = Code(name: string, levelIfWin: string)

  /** A profile save: the player's name and the level slot saved. */
  datatype ProfileSave = ProfileSave(name: string, slot: int)

  class BoyzEngine {
    var sceneState: map<string, int>
    var nextLevel: string
    var name: string
    var difficulty: string
    var lives: int
    var health: int
    var maxHealth: int
    var checkpoint: string
    var quitRequested: bool
    var saves: seq<ProfileSave>

    /** The fields no routine of this file touches keep their values. */
    twostate predicate KeepsTeam()
      reads this
    {
      && maxHealth == old(maxHealth) && checkpoint == old(checkpoint)
    }

    /** What <check_c3> leaves: the route it takes and the flags it read,
        and the profile saved to its slot. */
    twostate predicate CheckC3Done()
      reads this
    {
      && (nextLevel, sceneState) == CheckC3Route(old(sceneState))
      && saves == old(saves) + [ProfileSave(old(name), C3SaveSlot)]
      && KeepsTeam() && name == old(name) && difficulty == old(difficulty)
      && lives == old(lives) && health == old(health) && quitRequested == old(quitRequested)
    }

    /** What <check_ho> leaves: the route it takes and the flags it read or
        set, and the profile saved to its slot. */
    twostate predicate CheckHoDone()
      reads this
    {
      && (nextLevel, sceneState) == CheckHoRoute(old(sceneState))
      && saves == old(saves) + [ProfileSave(old(name), HotelSaveSlot)]
      && KeepsTeam() && name == old(name) && difficulty == old(difficulty)
      && lives == old(lives) && health == old(health) && quitRequested == old(quitRequested)
    }

    /** What <credits> leaves: back to the main menu, nothing else changed. */
    twostate predicate CreditsDone()
      reads this
    {
      && nextLevel == "<main_menu>"
      && sceneState == old(sceneState) && saves == old(saves)
      && KeepsTeam() && name == old(name) && difficulty == old(difficulty)
      && lives == old(lives) && health == old(health) && quitRequested == old(quitRequested)
    }

    /** What the name prompt leaves: the name typed over the polled batches
        (none when the game is already quitting), in lower case; a name with
        no profile starts a new game at the level after the menu. */
    twostate predicate MainMenuDone(code: Code, batches: seq<seq<Event>>, profiles: set<string>)
      reads this
    {
      && name == Lowercase(Poll(NameEvent, "", if old(quitRequested) then [] else batches).0)
      && nextLevel == (if name in profiles then old(nextLevel) else code.levelIfWin)
      && sceneState == old(sceneState) && saves == old(saves)
      && KeepsTeam() && difficulty == old(difficulty)
      && lives == old(lives) && health == old(health) && quitRequested == old(quitRequested)
    }

    /** What the difficulty menu leaves: the difficulty picked over the
        polled batches; with one the profile is saved and the game goes on,
        without one it is back to the main menu. */
    twostate predicate DifficultyMenuDone(code: Code, batches: seq<seq<Event>>)
      reads this
    {
      && difficulty == Poll(DifficultyEvent, "", if old(quitRequested) then [] else batches).0
      && IsDifficulty(difficulty)
      && (difficulty == "" ==> nextLevel == "<main_menu>" && saves == old(saves))
      && (difficulty != "" ==> nextLevel == code.levelIfWin && saves == old(saves) + [ProfileSave(name, 0)])
      && sceneState == old(sceneState)
      && KeepsTeam() && name == old(name)
      && lives == old(lives) && health == old(health) && quitRequested == old(quitRequested)
    }

    /** What the retry menu leaves: a life lost and, unless the menu failed,
        the decision it reached; a failure is the decision's error. */
    twostate predicate RetryMenuDone(batches: seq<seq<Event>>, new r: Result<()>)
      reads this
    {
      var decision := RetryDecision(old(checkpoint), old(maxHealth),
                                    RetryState(old(nextLevel), old(health), old(quitRequested)), batches);
      && lives == old(lives) - 1
      && (r.Ok? <==> decision.Ok?)
      && (r.Err? ==> decision == Err(r.error))
      && (r.Ok? ==> RetryState(nextLevel, health, quitRequested) == decision.value)
      && sceneState == old(sceneState) && saves == old(saves)
      && KeepsTeam() && name == old(name) && difficulty == old(difficulty)
    }

    method RunCheckC3(code: Code)
      modifies this
      ensures CheckC3Done()
    {
      var route := CheckC3Route(sceneState);
      sceneState := route.1;
      nextLevel := route.0;
      saves := saves + [ProfileSave(name, C3SaveSlot)];
    }

    method RunCheckHo(code: Code)
      modifies this
      ensures CheckHoDone()
    {
      var route := CheckHoRoute(sceneState);
      sceneState := route.1;
      nextLevel := route.0;
      saves := saves + [ProfileSave(name, HotelSaveSlot)];
    }

    method EndCredits(code: Code)
      modifies this
      ensures CreditsDone()
    {
      nextLevel := "<main_menu>";
    }

    /** The name prompt: the name is typed over the polled batches, then
        looked up in lower case. */
    method RunMainMenu(code: Code, batches: seq<seq<Event>>, profiles: set<string>)
      modifies this
      ensures MainMenuDone(code, batches, profiles)
    {
      var polled := if quitRequested then [] else batches;
      name := "";
      var waiting := true;
      var i := 0;
      assert polled[i..] == polled;
      while i < |polled| && waiting
        invariant 0 <= i <= |polled|
        invariant Poll(NameEvent, "", polled) == if waiting then Poll(NameEvent, name, polled[i..]) else (name, false)
        invariant nextLevel == old(nextLevel) && sceneState == old(sceneState) && saves == old(saves)
        invariant KeepsTeam() && difficulty == old(difficulty)
        invariant lives == old(lives) && health == old(health) && quitRequested == old(quitRequested)
      {
        var batch := polled[i];
        ghost var start := name;
        var j := 0;
        while j < |batch|
          invariant 0 <= j <= |batch|
          invariant (name, waiting) == Drain(NameEvent, start, true, batch[..j])
          invariant nextLevel == old(nextLevel) && sceneState == old(sceneState) && saves == old(saves)
          invariant KeepsTeam() && difficulty == old(difficulty)
          invariant lives == old(lives) && health == old(health) && quitRequested == old(quitRequested)
        {
          assert batch[..j + 1][..j] == batch[..j];
          var next := NameEvent(name, waiting, batch[j]);
          name, waiting := next.0, next.1;
          j := j + 1;
        }
        assert batch[..j] == batch;
        assert polled[i..][1..] == polled[i + 1..];
        i := i + 1;
      }
      name := Lowercase(name);
      if name !in profiles {
        nextLevel := code.levelIfWin;
      }
    }

    /** The difficulty menu, polled like the name prompt. */
    method RunDifficultyMenu(code: Code, batches: seq<seq<Event>>)
      modifies this
      ensures DifficultyMenuDone(code, batches)
    {
      var polled := if quitRequested then [] else batches;
      difficulty := "";
      var waiting := true;
      var i := 0;
      assert polled[i..] == polled;
      while i < |polled| && waiting
        invariant 0 <= i <= |polled|
        invariant Poll(DifficultyEvent, "", polled) ==
          if waiting then Poll(DifficultyEvent, difficulty, polled[i..]) else (difficulty, false)
        invariant nextLevel == old(nextLevel) && sceneState == old(sceneState) && saves == old(saves)
        invariant KeepsTeam() && name == old(name)
        invariant lives == old(lives) && health == old(health) && quitRequested == old(quitRequested)
      {
        var batch := polled[i];
        ghost var start := difficulty;
        var j := 0;
        while j < |batch|
          invariant 0 <= j <= |batch|
          invariant (difficulty, waiting) == Drain(DifficultyEvent, start, true, batch[..j])
          invariant nextLevel == old(nextLevel) && sceneState == old(sceneState) && saves == old(saves)
          invariant KeepsTeam() && name == old(name)
          invariant lives == old(lives) && health == old(health) && quitRequested == old(quitRequested)
        {
          assert batch[..j + 1][..j] == batch[..j];
          var next := DifficultyEvent(difficulty, waiting, batch[j]);
          difficulty, waiting := next.0, next.1;
          j := j + 1;
        }
        assert batch[..j] == batch;
        assert polled[i..][1..] == polled[i + 1..];
        i := i + 1;
      }
      DifficultyChosen(polled);
      if difficulty == "" {
        nextLevel := "<main_menu>";
      } else {
        saves := saves + [ProfileSave(name, 0)];
        nextLevel := code.levelIfWin;
      }
    }

    /** The retry menu, shown after the team dies: a life is lost, then the
        player retries the checkpoint, restarts its territory or quits. */
    method RunRetryMenu(code: Code, batches: seq<seq<Event>>) returns (r: Result<()>)
      modifies this
      ensures RetryMenuDone(batches, r)
    {
      lives := lives - 1;
      if quitRequested {
        return Ok(());
      }
      ghost var step := RetryStep(checkpoint, maxHealth);
      ghost var start := RetryState(nextLevel, health, quitRequested);
      var waiting := true;
      var i := 0;
      assert batches[i..] == batches;
      while i < |batches| && waiting
        invariant 0 <= i <= |batches|
        invariant lives == old(lives) - 1
        invariant Poll(step, Ok(start), batches) ==
          if waiting then Poll(step, Ok(RetryState(nextLevel, health, quitRequested)), batches[i..])
          else (Ok(RetryState(nextLevel, health, quitRequested)), false)
        invariant sceneState == old(sceneState) && saves == old(saves)
        invariant KeepsTeam() && name == old(name) && difficulty == old(difficulty)
      {
        var failed;
        waiting, failed := RetryBatch(batches[i]);
        assert batches[i..][1..] == batches[i + 1..];
        if failed.Err? {
          return failed;
        }
        i := i + 1;
      }
      r := Ok(());
    }

    /** One batch of the retry menu's events, handled in order until one of
        them fails. */
    method RetryBatch(batch: seq<Event>) returns (waiting: bool, r: Result<()>)
      modifies this
      ensures var d := Drain(RetryStep(checkpoint, maxHealth), Ok(RetryState(old(nextLevel), old(health), old(quitRequested))), true, batch);
        && (r.Ok? ==> d == (Ok(RetryState(nextLevel, health, quitRequested)), waiting))
        && (r.Err? ==> d == (Err(r.error), false))
      ensures lives == old(lives) && sceneState == old(sceneState) && saves == old(saves)
      ensures KeepsTeam() && name == old(name) && difficulty == old(difficulty)
    {
      ghost var step := RetryStep(checkpoint, maxHealth);
      ghost var from := RetryState(nextLevel, health, quitRequested);
      waiting := true;
      var j := 0;
      while j < |batch|
        invariant 0 <= j <= |batch|
        invariant (Ok(RetryState(nextLevel, health, quitRequested)), waiting) == Drain(step, Ok(from), true, batch[..j])
        invariant lives == old(lives) && sceneState == old(sceneState) && saves == old(saves)
        invariant KeepsTeam() && name == old(name) && difficulty == old(difficulty)
      {
        assert batch[..j + 1][..j] == batch[..j];
        var next := RetryEvent(checkpoint, maxHealth, Ok(RetryState(nextLevel, health, quitRequested)), waiting, batch[j]);
        if next.0.Err? {
          // error(): the rest of the events are never handled
          DrainAppend(step, Ok(from), true, batch[..j + 1], batch[j + 1..]);
          assert batch[..j + 1] + batch[j + 1..] == batch;
          DrainAfterFailure(checkpoint, maxHealth, next.0.error, false, batch[j + 1..]);
          return false, Err(next.0.error);
        }
        nextLevel, health, quitRequested := next.0.value.nextLevel, next.0.value.health, next.0.value.quit;
        waiting := next.1;
        j := j + 1;
      }
      assert batch[..j] == batch;
      r := Ok(());
    }

    /** Runs the hard-coded level named by `code`. */
    method RunCode(code: Code, batches: seq<seq<Event>>, profiles: set<string>) returns (r: Result<Routine>)
      modifies this
      ensures RoutineFor(code.name).Err? ==> r == RoutineFor(code.name) && unchanged(this)
      ensures r.Ok? ==> r == RoutineFor(code.name)
      ensures r.Ok? && r.value == MainMenu ==> MainMenuDone(code, batches, profiles)
      ensures r.Ok? && r.value == DifficultyMenu ==> DifficultyMenuDone(code, batches)
      ensures r.Ok? && r.value == RetryMenu ==> RetryMenuDone(batches, Ok(()))
      ensures r.Ok? && r.value == CheckC3 ==> CheckC3Done()
      ensures r.Ok? && r.value == CheckHo ==> CheckHoDone()
      ensures r.Ok? && r.value == Credits ==> CreditsDone()
      ensures r.Err? && RoutineFor(code.name).Ok? ==>
        && RoutineFor(code.name).value == RetryMenu && RetryMenuDone(batches, Err(r.error))
        && r.error == InvalidTerritory(old(checkpoint))
    {
      var routine :- RoutineFor(code.name);
      match routine {
      case MainMenu => RunMainMenu(code, batches, profiles);
      case DifficultyMenu => RunDifficultyMenu(code, batches);
      case RetryMenu =>
        ghost var start := RetryState(nextLevel, health, quitRequested);
        var retried := RunRetryMenu(code, batches);
        if retried.Err? {
          RetryChoices(old(checkpoint), old(maxHealth), start, batches);
          return Err(retried.error);
        }
      case CheckC3 => RunCheckC3(code);
      case CheckHo => RunCheckHo(code);
      case Credits => EndCredits(code);
      }
      r := Ok(routine);
    }
  }
}
