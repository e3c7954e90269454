/**
 * The passive game controller (game_sdk/passive/game.py): a state machine
 * over the game phase, a seat-to-score map, and the lifecycle hooks a game
 * overrides. Each loop iteration of the two MQTT subscription loops is one
 * call; messages arrive as arguments. Hook invocations (including the
 * fire-and-forget `on_score` task) are recorded in an appended trace.
 */
module Game {
  import opened Wrappers

  /** The phases published on the status topic; `Idle` is the phase before any status message. */
  datatype GameState = Idle | Start | Run | End

  /** Lifecycle hooks of the game template, in the order they are invoked or scheduled. */
  datatype Hook = OnInit | OnPreGame | OnStart | OnScore | OnEnd

  /** One message of the control subscription: its topic and the `seat`/`score` payload fields. */
  datatype ScoreMessage = ScoreMessage(topic: string, seat: int, score: int)

  /** A message from either subscription loop. */
  datatype Event = Status(state: GameState) | Control(message: ScoreMessage)

  /** The state the two loops act on: phase, player scores, hooks fired so far. */
  datatype Session = Session(state: GameState, players: map<int, int>, hooks: seq<Hook>)

  const ScoreTopic: string := "score"

  /** Error raised by the `players` property before `run()` has started the game. */
  datatype AccessError = NotRunning

  /** The hook dispatched for a status message: exactly one for START, RUN and END, none otherwise. */
  function PhaseHook(g: GameState): (h: Option<Hook>)
    ensures h.Some? <==> g != Idle
    ensures h.Some? ==> h.value != OnInit && h.value != OnScore
    ensures h.Some? ==> PhaseOf(h.value) == Some(g)
  {
    match g
    case Start => Some(OnPreGame)
    case Run => Some(OnStart)
    case End => Some(OnEnd)
    case Idle => None
  }

  /** The phase whose arrival a hook announces, if it is a phase hook. */
  function PhaseOf(h: Hook): Option<GameState> {
    match h
    case OnPreGame => Some(Start)
    case OnStart => Some(Run)
    case OnEnd => Some(End)
    case _ => None
  }

  /** Distinct phases dispatch distinct hooks, and every phase hook is dispatched by its phase. */
  lemma PhaseHookInjective(g: GameState, h: Hook)
    ensures PhaseOf(h) == Some(g) <==> PhaseHook(g) == Some(h)
  {
  }

  function HooksOf(o: Option<Hook>): seq<Hook> {
    match o
    case Some(h) => [h]
    case None => []
  }

  /**
   * Body of the `_game_io_ctlsub` loop for one message: applied only on the
   * score topic while the game runs, then the seat holds exactly the sent
   * score and one `on_score` is scheduled after the update.
   */
  function ApplyScore(s: Session, m: ScoreMessage): (r: Session)
    ensures r.state == s.state
    ensures r != s ==> m.topic == ScoreTopic && s.state == Run
    ensures m.topic == ScoreTopic && s.state == Run ==>
              && m.seat in r.players && r.players[m.seat] == m.score
              && (forall seat :: seat in s.players && seat != m.seat ==> seat in r.players && r.players[seat] == s.players[seat])
              && r.hooks == s.hooks + [OnScore]
  {
    if m.topic == ScoreTopic && s.state == Run then
      s.(players := s.players[m.seat := m.score], hooks := s.hooks + [OnScore])
    else
      s
  }

  /**
   * Body of the `_game_io_statussub` loop for one message: the phase is
   * overwritten whatever it was, the scores are untouched, and one hook is
   * appended for every phase except `Idle`.
   */
  function ApplyStatus(s: Session, g: GameState): (r: Session)
    ensures r.state == g && r.players == s.players
    ensures |r.hooks| == |s.hooks| + (if g == Idle then 0 else 1)
    ensures r.hooks[..|s.hooks|] == s.hooks
    ensures g != Idle ==> PhaseOf(r.hooks[|s.hooks|]) == Some(g)
  {
    s.(state := g, hooks := s.hooks + HooksOf(PhaseHook(g)))
  }

  function Step(s: Session, e: Event): Session {
    match e
    case Status(g) => ApplyStatus(s, g)
    case Control(m) => ApplyScore(s, m)
  }

  /** The session after handling `events` in order (one interleaving of the two streams). */
  function Replay(s: Session, events: seq<Event>): (r: Session)
    ensures |s.hooks| <= |r.hooks| && r.hooks[..|s.hooks|] == s.hooks
    decreases |events|
  {
    if events == [] then s else Replay(Step(s, events[0]), events[1..])
  }

  /** Handling a concatenation is handling one part after the other. */
  lemma {:induction false} ReplayAppend(s: Session, first: seq<Event>, second: seq<Event>)
    ensures Replay(s, first + second) == Replay(Replay(s, first), second)
    decreases |first|
  {
    if first != [] {
      assert (first + second)[0] == first[0];
      assert (first + second)[1..] == first[1..] + second;
      ReplayAppend(Step(s, first[0]), first[1..], second);
    } else {
      assert first + second == second;
    }
  }

  /**
   * The phase after a run of events is the one carried by the last status
   * message, whatever came before: status messages are never gated.
   */
  lemma {:induction false} ReplayStateIsLastStatus(s: Session, events: seq<Event>, i: nat)
    requires i < |events| && events[i].Status?
    requires forall j :: i < j < |events| ==> events[j].Control?
    ensures Replay(s, events).state == events[i].state
    decreases |events|
  {
    if i > 0 {
      ReplayStateIsLastStatus(Step(s, events[0]), events[1..], i - 1);
    } else {
      ReplayKeepsStateWithoutStatus(Step(s, events[0]), events[1..]);
    }
  }

  /** Score messages alone never change the phase. */
  lemma {:induction false} ReplayKeepsStateWithoutStatus(s: Session, events: seq<Event>)
    requires forall j :: 0 <= j < |events| ==> events[j].Control?
    ensures Replay(s, events).state == s.state
    decreases |events|
  {
    if events != [] {
      ReplayKeepsStateWithoutStatus(Step(s, events[0]), events[1..]);
    }
  }

  /**
   * Outside the RUN phase, and as long as no RUN status arrives, score
   * messages leave the scores unchanged and schedule no `on_score`.
   */
  lemma {:induction false} ScoresFrozenOutsideRun(s: Session, events: seq<Event>)
    requires s.state != Run
    requires forall j :: 0 <= j < |events| ==> events[j] != Status(Run)
    ensures Replay(s, events).players == s.players
    ensures OnScore !in Replay(s, events).hooks[|s.hooks|..]
    decreases |events|
  {
    if events != [] {
      var next := Step(s, events[0]);
      ScoresFrozenOutsideRun(next, events[1..]);
      var r := Replay(s, events);
      assert r == Replay(next, events[1..]);
      assert next.hooks[|s.hooks|..] == HooksOf(if events[0].Status? then PhaseHook(events[0].state) else None);
      assert r.hooks[|s.hooks|..] == next.hooks[|s.hooks|..] + r.hooks[|next.hooks|..];
    }
  }

  /** Score messages that follow an END status, with no new RUN status, are dropped. */
  lemma ScoresIgnoredAfterEnd(s: Session, before: seq<Event>, after: seq<Event>)
    requires forall j :: 0 <= j < |after| ==> after[j] != Status(Run)
    ensures Replay(s, before + [Status(End)] + after).players == Replay(s, before).players
  {
    ReplayAppend(s, before + [Status(End)], after);
    ReplayAppend(s, before, [Status(End)]);
    ScoresFrozenOutsideRun(Replay(s, before + [Status(End)]), after);
  }

  /** Score messages that precede the RUN status are dropped. */
  lemma ScoresIgnoredBeforeRun(s: Session, before: seq<Event>, after: seq<Event>)
    requires s.state != Run
    requires forall j :: 0 <= j < |before| ==> before[j] != Status(Run)
    ensures Replay(s, before + [Status(Run)] + after)
         == Replay(Session(Run, s.players, Replay(s, before).hooks + [OnStart]), after)
  {
    ReplayAppend(s, before + [Status(Run)], after);
    ReplayAppend(s, before, [Status(Run)]);
    ScoresFrozenOutsideRun(s, before);
    ReplayStateIsLastStatus(s, before + [Status(Run)], |before|);
  }

  /** A later score for the same seat overwrites the earlier one instead of adding to it. */
  lemma ScoreOverwrites(s: Session, seat: int, first: int, second: int)
    requires s.state == Run
    ensures var r := Replay(s, [Control(ScoreMessage(ScoreTopic, seat, first)), Control(ScoreMessage(ScoreTopic, seat, second))]);
            seat in r.players && r.players[seat] == second
  {
    var events := [Control(ScoreMessage(ScoreTopic, seat, first)), Control(ScoreMessage(ScoreTopic, seat, second))];
    var s1 := Step(s, events[0]);
    assert s1.state == Run;
    assert Replay(s, events) == Replay(s1, events[1..]);
    assert Replay(s1, events[1..]) == Replay(Step(s1, events[1]), []);
  }

  /**
   * A full round: PreGame, Run, two scores, End. The hooks fire in the
   * order on_pregame, on_start, on_score, on_score, on_end and both scores
   * are recorded.
   */
  lemma FullRoundScenario(players: map<int, int>)
    ensures var r := Replay(Session(Idle, players, []),
                            [Status(Start), Status(Run),
                             Control(ScoreMessage(ScoreTopic, 0, 10)), Control(ScoreMessage(ScoreTopic, 1, 3)),
                             Status(End)]);
            && r.hooks == [OnPreGame, OnStart, OnScore, OnScore, OnEnd]
            && r.state == End
            && r.players == players[0 := 10][1 := 3]
  {
    var events := [Status(Start), Status(Run),
                   Control(ScoreMessage(ScoreTopic, 0, 10)), Control(ScoreMessage(ScoreTopic, 1, 3)),
                   Status(End)];
    var s0 := Session(Idle, players, []);
    var s1 := Step(s0, events[0]);
    var s2 := Step(s1, events[1]);
    var s3 := Step(s2, events[2]);
    var s4 := Step(s3, events[3]);
    var s5 := Step(s4, events[4]);
    assert Replay(s0, events) == Replay(s1, events[1..]);
    assert Replay(s1, events[1..]) == Replay(s2, events[2..]);
    assert Replay(s2, events[2..]) == Replay(s3, events[3..]);
    assert Replay(s3, events[3..]) == Replay(s4, events[4..]);
    assert Replay(s4, events[4..]) == Replay(s5, []);
  }

  /**
   * `Game`: the fields `_game_state`, `_is_running` and `_players`, plus the
   * trace of hooks invoked so far.
   */
  class Game {
    var gameState: GameState
    var isRunning: bool
    var players: map<int, int>
    var hooks: seq<Hook>

    /** The game is only marked running once `on_init` has been invoked. */
    ghost predicate Valid()
      reads this
    {
      isRunning ==> OnInit in hooks
    }

    function View(): Session
      reads this
    {
      Session(gameState, players, hooks)
    }

    constructor ()
      ensures Valid()
      ensures gameState == Idle && !isRunning && players == map[] && hooks == []
    {
      gameState := Idle;
      isRunning := false;
      players := map[];
      hooks := [];
    }

    /** The `players` property: raises unless `run()` has marked the game running. */
    method Players() returns (r: Result<map<int, int>, AccessError>)
      ensures r.Ok? <==> isRunning
      ensures r.Ok? ==> r.value == players
    {
      if isRunning {
        return Ok(players);
      }
      return Err(NotRunning);
    }

    /** One iteration of `_game_io_ctlsub`. */
    method HandleScoreMessage(m: ScoreMessage) returns (applied: bool)
      requires Valid()
      modifies this`players, this`hooks
      ensures Valid()
      ensures applied <==> m.topic == ScoreTopic && gameState == GameState.Run
      ensures applied ==> players == old(players)[m.seat := m.score] && hooks == old(hooks) + [OnScore]
      ensures !applied ==> players == old(players) && hooks == old(hooks)
      ensures View() == ApplyScore(old(View()), m)
    {
      applied := m.topic == ScoreTopic && gameState == GameState.Run;
      if applied {
        players := players[m.seat := m.score];
        hooks := hooks + [OnScore];
      }
    }

    /** One iteration of `_game_io_statussub`. */
    method HandleStatus(g: GameState)
      requires Valid()
      modifies this`gameState, this`hooks
      ensures Valid()
      ensures gameState == g
      ensures hooks == old(hooks) + HooksOf(PhaseHook(g))
      ensures View() == ApplyStatus(old(View()), g)
    {
      gameState := g;
      match g {
        case Start => hooks := hooks + [OnPreGame];
        case Run => hooks := hooks + [OnStart];
        case End => hooks := hooks + [OnEnd];
        case Idle =>
      }
    }

    /**
     * `_run` up to the point where the two loops are awaited. The players
     * object is built before connecting; `connects` says whether
     * `connect()` succeeded (false: MqttError, logged and swallowed).
     */
    method Run(initialPlayers: map<int, int>, connects: bool) returns (started: bool)
      requires Valid()
      modifies this`players, this`hooks, this`isRunning
      ensures Valid()
      ensures started == connects
      ensures players == initialPlayers
      ensures started ==> isRunning && hooks == old(hooks) + [OnInit]
      ensures !started ==> isRunning == old(isRunning) && hooks == old(hooks)
    {
      players := initialPlayers;
      if !connects {
        return false;
      }
      hooks := hooks + [OnInit];
      isRunning := true;
      started := true;
    }
  }
}
