/**
 The dashboard itself: the window's size, the fallback overview it keeps, what
 it has drawn, the key bindings and the refresh loop. The loop redraws, waits
 for a key or the refresh delay, and stops on `q`/`Q`, on an interrupt from the
 keyboard or on a wait that fails for any reason other than EINTR.

 Each pass of the loop is given as a `Tick`: the terminal size read at its
 start, what the broker answered, and how the wait ended. A run of the loop is a
 finite sequence of ticks; `Session` says what the run draws and how it ends.
 */
module Top {
  import opened Wrappers
  import opened Stats
  import opened Uptime
  import opened Layout

  /** `errno.EINTR`: a wait cut short by a signal. */
  const EINTR: int := 4

  /** What a key does. */
  datatype Action = Quit | Ignore

  /** `key_bindings`: `q` and `Q` quit; every other key is looked up in vain
      and does nothing. */
  const KeyBindings: map<int, Action> := map['q' as int := Quit, 'Q' as int := Quit]

  /** The action bound to a key, doing nothing when none is. */
  function KeyAction(key: int): (a: Action)
    ensures a == Quit <==> key == 'q' as int || key == 'Q' as int
  {
    if key in KeyBindings then KeyBindings[key] else Ignore
  }

  /** How one wait for input ended: the delay ran out with no input, a key
      was pressed, the wait raised `select.error` with the given arguments, or
      the user pressed Ctrl-C. */
  datatype PollResult = Timeout | Ready(key: int) | SelectError(args: seq<int>) | KeyboardInterrupt

  /** A select error whose first argument is EINTR. */
  predicate IsEintr(args: seq<int>)
  {
    |args| > 0 && args[0] == EINTR
  }

  /** How the loop ended: `sys.exit(status)`, a plain return after a keyboard
      interrupt, or the select error re-raised. */
  datatype Outcome = Exited(status: int) | Interrupted | Raised(args: seq<int>)

  /** What a pass does after its wait. */
  datatype Step = Continue | Stop(outcome: Outcome)

  /** The end of one pass of `run`: a keyboard interrupt breaks out of the
      loop, a select error is swallowed only when it is EINTR, and a key is
      handed to its binding. */
  function Decide(p: PollResult): (s: Step)
    ensures s == Continue <==>
      p.Timeout? || (p.Ready? && KeyAction(p.key) == Ignore) || (p.SelectError? && IsEintr(p.args))
    ensures s.Stop? && s.outcome.Exited? ==> p.Ready? && s.outcome.status == 0
    ensures s.Stop? && s.outcome.Raised? ==> p == SelectError(s.outcome.args)
    ensures s == Stop(Interrupted) <==> p.KeyboardInterrupt?
  {
    match p
    case Timeout => Continue
    case Ready(key) => if KeyAction(key) == Quit then Stop(Exited(0)) else Continue
    case SelectError(args) => if IsEintr(args) then Continue else Stop(Raised(args))
    case KeyboardInterrupt => Stop(Interrupted)
  }

  /** An EINTR wait counts as one that timed out with no input. */
  lemma EintrIsTimeout(args: seq<int>)
    requires IsEintr(args)
    ensures Decide(SelectError(args)) == Decide(Timeout)
  {
  }

  /** The program exits only on `q` or `Q`, and then with status 0. */
  lemma OnlyQuitExits(p: PollResult, status: int)
    requires Decide(p) == Stop(Exited(status))
    ensures status == 0 && p.Ready? && (p.key == 'q' as int || p.key == 'Q' as int)
  {
  }

  /** One pass of the loop: the terminal size it reads, the broker's answer,
      and how its wait ends. */
  datatype Tick = Tick(height: nat, width: nat, reply: Reply, poll: PollResult)

  /** The frame a pass draws: the broker's data, or the placeholders when it
      cannot be asked. */
  function Drawn(width: nat, height: nat, reply: Reply): seq<string>
  {
    var data := GetData(reply, PlaceholderOverview());
    Frame(width, height, data.0, data.1)
  }

  /** How a run of the loop over a script of passes ends: the number of passes
      it makes, and its outcome (None when the script runs out first). */
  function Session(script: seq<Tick>): (r: (nat, Option<Outcome>))
    ensures r.0 <= |script|
    ensures r.1.None? <==> r.0 == |script| && (r.0 == 0 || Decide(script[r.0 - 1].poll) == Continue)
    decreases |script|
  {
    if script == [] then (0, None)
    else
      match Decide(script[0].poll)
      case Stop(o) => (1, Some(o))
      case Continue =>
        var rest := Session(script[1..]);
        (rest.0 + 1, rest.1)
  }

  /** A run makes passes up to and including the first whose wait ends it,
      and ends with that pass's outcome; when no pass ends it, it runs
      through the whole script. */
  lemma {:induction false} SessionSpec(script: seq<Tick>)
    ensures var (n, outcome) := Session(script);
      n <= |script| &&
      (forall i :: 0 <= i < n - 1 ==> Decide(script[i].poll) == Continue) &&
      (outcome.None? <==> n == |script| && (n == 0 || Decide(script[n - 1].poll) == Continue)) &&
      (outcome.Some? ==> n > 0 && Decide(script[n - 1].poll) == Stop(outcome.value))
    decreases |script|
  {
    if script != [] && Decide(script[0].poll) == Continue {
      var tail := script[1..];
      SessionSpec(tail);
      var rest := Session(tail);
      var n := rest.0 + 1;
      assert Session(script) == (n, rest.1);
      forall i | 0 < i < n - 1 ensures Decide(script[i].poll) == Continue {
        assert tail[i - 1] == script[i];
      }
      if n > 1 {
        assert tail[n - 2] == script[n - 1];
      }
    }
  }

  /** The run ends with `sys.exit(0)` only when its last pass reads `q` or
      `Q`. */
  lemma SessionExit(script: seq<Tick>, status: int)
    requires Session(script).1 == Some(Exited(status))
    ensures status == 0
    ensures var n := Session(script).0;
      0 < n <= |script| && script[n - 1].poll.Ready? && KeyAction(script[n - 1].poll.key) == Quit
  {
    SessionSpec(script);
    var n := Session(script).0;
    OnlyQuitExits(script[n - 1].poll, status);
  }

  /** One step of a run that goes on past its first pass. */
  lemma SessionContinue(script: seq<Tick>, i: nat)
    requires i < |script| && Decide(script[i].poll) == Continue
    ensures Session(script[i..]) == (Session(script[i + 1..]).0 + 1, Session(script[i + 1..]).1)
  {
    assert script[i..][1..] == script[i + 1..];
  }

  /** A run whose first pass ends it. */
  lemma SessionStop(script: seq<Tick>, i: nat, o: Outcome)
    requires i < |script| && Decide(script[i].poll) == Stop(o)
    ensures Session(script[i..]) == (1, Some(o))
  {
  }

  /** What a pass's wait leaves of the run: its outcome when it ends the run. */
  function Ending(s: Step): Option<Outcome>
  {
    if s.Stop? then Some(s.outcome) else None
  }

  /** Where a run stands after some passes of the script: still going, with
      the rest of the run left to the remaining passes, or ended as the whole
      run ends. */
  predicate Progress(script: seq<Tick>, passes: nat, outcome: Option<Outcome>)
  {
    passes <= |script| &&
    (outcome.None? ==> Session(script) == (passes + Session(script[passes..]).0, Session(script[passes..]).1)) &&
    (outcome.Some? ==> Session(script) == (passes, outcome))
  }

  /** One more pass keeps track of the run. */
  lemma ProgressStep(script: seq<Tick>, passes: nat)
    requires Progress(script, passes, None) && passes < |script|
    ensures Progress(script, passes + 1, Ending(Decide(script[passes].poll)))
  {
    match Decide(script[passes].poll)
    case Stop(o) => SessionStop(script, passes, o);
    case Continue => SessionContinue(script, passes);
  }

  /** A run that has ended, or used up its script, is the whole run. */
  lemma ProgressDone(script: seq<Tick>, passes: nat, outcome: Option<Outcome>)
    requires Progress(script, passes, outcome) && (passes == |script| || outcome.Some?)
    ensures Session(script) == (passes, outcome)
  {
    if outcome.None? {
      assert script[passes..] == [];
    }
  }

  /** The fallback overview once a failed refresh has written the formatted
      uptime into it. */
  function MarkedOverview(): Overview
  {
    PlaceholderOverview().(uptime := Some(Str("0h 0m 0s")))
  }

  /** Writing the uptime into the fallback overview changes nothing on the
      screen: the text `"0h 0m 0s"` is not a number, so it is shown as the
      missing uptime is. */
  lemma MarkedFrame(width: nat, height: int, tubes: seq<Tube>)
    ensures Frame(width, height, MarkedOverview(), tubes) == Frame(width, height, PlaceholderOverview(), tubes)
  {
    assert SummaryItems(MarkedOverview()) == SummaryItems(PlaceholderOverview());
  }

  /** The frame drawn from the data fetched with either form of the fallback
      overview is the frame of `Drawn`. */
  lemma DrawnWithFallback(width: nat, height: nat, reply: Reply, fallback: Overview)
    requires fallback == PlaceholderOverview() || fallback == MarkedOverview()
    ensures Frame(width, height, GetData(reply, fallback).0, GetData(reply, fallback).1) == Drawn(width, height, reply)
  {
    if reply.Fail? {
      MarkedFrame(width, height, [PlaceholderRow()]);
    }
  }

  /** The drawing half of `refresh_display`: the data fetched with the kept
      fallback overview, laid out as a frame, is the frame of `Drawn`. */
  method Draw(width: nat, height: nat, reply: Reply, fallback: Overview) returns (frame: seq<string>)
    requires fallback == PlaceholderOverview() || fallback == MarkedOverview()
    ensures frame == Drawn(width, height, reply)
  {
    var data := GetData(reply, fallback);
    frame := BuildFrame(width, height, data.0, data.1);
    DrawnWithFallback(width, height, reply, fallback);
  }

  /** The dashboard: the window's size as last read, the fallback overview
      the fetch hands back on failure (the same dictionary every time, so the
      uptime written into it stays), and the lines on the screen. */
  class TopUI {
    var height: nat
    var width: nat
    var defaultOverview: Overview
    var screen: seq<string>

    /** The fallback overview holds placeholders, with the formatted zero
        uptime once a failed refresh has written it. */
    predicate Valid()
      reads this
    {
      defaultOverview == PlaceholderOverview() || defaultOverview == MarkedOverview()
    }

    /** `__init__`: reads the window size; the fallback overview starts as
        placeholders with no uptime, and nothing is drawn yet. */
    constructor(h: nat, w: nat)
      ensures Valid()
      ensures height == h && width == w
      ensures defaultOverview == PlaceholderOverview() && screen == []
    {
      height, width := h, w;
      defaultOverview := PlaceholderOverview();
      screen := [];
    }

    /** `resize`: takes the window's current size. */
    method Resize(h: nat, w: nat)
      modifies this
      ensures height == h && width == w
      ensures defaultOverview == old(defaultOverview) && screen == old(screen)
    {
      height, width := h, w;
    }

    /** `handle_key`: the exit status when the key is bound to quitting. */
    method HandleKey(key: int) returns (exit: Option<int>)
      ensures exit.Some? <==> key == 'q' as int || key == 'Q' as int
      ensures exit.Some? ==> exit.value == 0
    {
      var action := if key in KeyBindings then KeyBindings[key] else Ignore;
      if action == Quit {
        exit := Some(0);
      } else {
        exit := None;
      }
    }

    /** The end of a pass of `run`: the wait's outcome handled as the
        `try`/`except` around `poll` does, and a key handed to `handle_key`. */
    method Wait(p: PollResult) returns (step: Step)
      ensures step == Decide(p)
    {
      match p {
        case Timeout =>
          step := Continue;
        case Ready(key) =>
          var exit := HandleKey(key);
          step := if exit.Some? then Stop(Exited(exit.value)) else Continue;
        case SelectError(args) =>
          step := if IsEintr(args) then Continue else Stop(Raised(args));
        case KeyboardInterrupt =>
          step := Stop(Interrupted);
      }
    }

    /** `refresh_display`: fetches the data, falling back on the kept
        overview, and draws the frame; the formatted uptime is written into
        the fetched overview, which on failure is the kept one. What is drawn
        is the frame of the broker's data, or of the placeholders. */
    method RefreshDisplay(reply: Reply)
      requires Valid()
      modifies this`defaultOverview, this`screen
      ensures defaultOverview == if reply.Fail? then MarkedOverview() else old(defaultOverview)
      ensures screen == Drawn(width, height, reply)
    {
      var fallback := defaultOverview;
      var overview := GetData(reply, fallback).0;
      if reply.Fail? {
        UptimeFallback(overview.uptime);
        defaultOverview := overview.(uptime := Some(Str(UptimeText(overview.uptime))));
      }
      screen := Draw(width, height, reply, fallback);
    }

    /** `run`: each pass reads the size, redraws and waits. The loop makes
        the passes `Session` counts and ends as it says. */
    method Run(script: seq<Tick>) returns (passes: nat, outcome: Option<Outcome>)
      requires Valid()
      modifies this
      ensures Valid()
      ensures (passes, outcome) == Session(script)
    {
      passes, outcome := 0, None;
      while passes < |script| && outcome.None?
        invariant Valid() && Progress(script, passes, outcome)
        decreases |script| - passes
      {
        var t := script[passes];
        ProgressStep(script, passes);
        Resize(t.height, t.width);
        RefreshDisplay(t.reply);
        var step := Wait(t.poll);
        outcome := Ending(step);
        passes := passes + 1;
      }
      ProgressDone(script, passes, outcome);
    }
  }
}
