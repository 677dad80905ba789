/** The match: the round state machine driven by a one-second tick
    (WAITING, STARTING, ACTIVE, ENDING, RESTARTING), the joined players, the
    per-player scores and the score board, the freeze flag the world sets on
    each player's controller, and the delayed reset after a win. Messages to
    players are recorded in an outgoing log. */
module GunWorldSession {
  import opened Options

  // ---------------------------------------------------------------------
  // Constants and entities
  // ---------------------------------------------------------------------

  const RoundDuration: int := 300000   // ms, 5 minutes per round
  const StartCountdown: int := 5000    // ms of countdown before a round
  const EndScreenDuration: int := 5000 // ms the results stay up
  const FinalWarning: int := 10000     // ms left when the round-end warnings start

  datatype PlayState = Waiting | Starting | Active | Ending | Restarting

  /** A connected player; the score table is keyed by the user name. */
  datatype Player = Player(id: nat, username: string)

  /** One numbered line of the score board. */
  datatype RankedScore = RankedScore(rank: nat, name: string, score: int)

  datatype Message =
    | GameStartingIn(seconds: int)
    | GameStartingAnnouncement
    | RoundStarted
    | RoundEndingIn(seconds: int)
    | RoundOver
    | ScoreBoard(scores: seq<RankedScore>, roundNumber: nat, isGameOver: bool)
    | PlayerCount(entities: nat, needed: int)
    | Winner(username: string)

  /** A message and the players it was sent to. */
  datatype Outgoing = Outgoing(recipients: seq<Player>, message: Message)

  // ---------------------------------------------------------------------
  // Time arithmetic
  // ---------------------------------------------------------------------

  /** `Math.ceil(a / b)` for whole milliseconds. */
  function CeilDiv(a: int, b: int): (r: int)
    requires 0 < b
    ensures (r - 1) * b < a <= r * b
  {
    -((-a) / b)
  }

  /** The seconds left in the start countdown, as the STARTING tick shows them. */
  function StartingRemaining(startTime: int, now: int): (r: int)
    ensures r <= 0 <==> now - startTime >= StartCountdown
    ensures now >= startTime ==> r <= StartCountdown / 1000
  {
    CeilDiv(StartCountdown - (now - startTime), 1000)
  }

  /** Later ticks never show more seconds left. */
  lemma StartingRemainingMonotone(startTime: int, t1: int, t2: int)
    requires t1 <= t2
    ensures StartingRemaining(startTime, t2) <= StartingRemaining(startTime, t1)
  {
  }

  /** JavaScript truthiness of an optional timestamp: present and non-zero. */
  predicate Truthy(t: Option<int>) {
    t.Some? && t.value != 0
  }

  /** Milliseconds left in the round: 0 without a (truthy) round start,
      never negative, and at most the round duration for a clock that does
      not run backwards. */
  function RoundTimeRemaining(roundStartTime: Option<int>, roundDuration: int, now: int): (r: int)
    ensures 0 <= r
    ensures !Truthy(roundStartTime) ==> r == 0
    ensures 0 <= roundDuration && (Truthy(roundStartTime) ==> roundStartTime.value <= now) ==> r <= roundDuration
    ensures Truthy(roundStartTime) ==>
              (r == 0 <==> roundDuration - (now - roundStartTime.value) <= 0)
  {
    if !Truthy(roundStartTime) then 0
    else
      var left := roundDuration - (now - roundStartTime.value);
      if left < 0 then 0 else left
  }

  // ---------------------------------------------------------------------
  // Player lists and freezing
  // ---------------------------------------------------------------------

  predicate NoDuplicates<T(==)>(s: seq<T>) {
    forall i, j :: 0 <= i < j < |s| ==> s[i] != s[j]
  }

  /** `players.filter(p => p !== player)`. */
  function Without(s: seq<Player>, p: Player): (r: seq<Player>)
    ensures p !in r
    ensures forall q :: q in r <==> q in s && q != p
    ensures NoDuplicates(s) ==> NoDuplicates(r)
    ensures p !in s ==> r == s
  {
    if s == [] then []
    else
      assert NoDuplicates(s) ==> NoDuplicates(s[1..]) && s[0] !in s[1..] by {
        if NoDuplicates(s) {
          forall i, j | 0 <= i < j < |s[1..]| ensures s[1..][i] != s[1..][j] {
            assert s[1..][i] == s[i + 1] && s[1..][j] == s[j + 1];
          }
        }
      }
      if s[0] == p then Without(s[1..], p)
      else [s[0]] + Without(s[1..], p)
  }

  /** Filtering keeps the order of the remaining players: it distributes
      over concatenation. */
  lemma {:induction false} WithoutKeepsOrder(a: seq<Player>, b: seq<Player>, p: Player)
    ensures Without(a + b, p) == Without(a, p) + Without(b, p)
  {
    if a == [] {
      assert a + b == b;
    } else {
      assert (a + b)[0] == a[0] && (a + b)[1..] == a[1..] + b;
      WithoutKeepsOrder(a[1..], b, p);
      if a[0] != p {
        calc {
          Without(a + b, p);
          [a[0]] + Without(a[1..] + b, p);
          [a[0]] + (Without(a[1..], p) + Without(b, p));
          ([a[0]] + Without(a[1..], p)) + Without(b, p);
        }
      }
    }
  }

  /** The freeze flags after setting every listed player's flag to `v`. */
  function FrozenAs(frozen: map<Player, bool>, entities: seq<Player>, v: bool): (r: map<Player, bool>)
    ensures forall p :: p in entities ==> p in r && r[p] == v
    ensures forall p :: p !in entities ==> (p in r <==> p in frozen)
    ensures forall p :: p !in entities && p in frozen ==> r[p] == frozen[p]
  {
    frozen + map p | p in entities :: v
  }

  // ---------------------------------------------------------------------
  // The score table: a JavaScript Map, so entries keep insertion order
  // ---------------------------------------------------------------------

  datatype ScoreEntry = ScoreEntry(name: string, score: int)

  /** The table's keys in insertion order, and the score stored under each. */
  datatype ScoreTable = ScoreTable(order: seq<string>, values: map<string, int>)

  const EmptyTable := ScoreTable([], map[])

  /** Every key listed once, and exactly the keys that hold a score. */
  predicate WellFormed(t: ScoreTable) {
    NoDuplicates(t.order) && t.values.Keys == set n | n in t.order
  }

  /** `scores.get(name)`. */
  function Lookup(t: ScoreTable, name: string): Option<int> {
    if name in t.values then Some(t.values[name]) else None
  }

  /** In a well-formed table a player has a score exactly when it is listed. */
  lemma LookupFindsListed(t: ScoreTable, name: string)
    requires WellFormed(t)
    ensures Lookup(t, name).Some? <==> name in t.order
  {
  }

  /** `scores.set(name, v)`: an existing key keeps its place, a new key goes
      last; only `name`'s score changes. */
  function Store(t: ScoreTable, name: string, v: int): (r: ScoreTable)
    ensures WellFormed(t) ==> WellFormed(r)
    ensures WellFormed(t) ==> r.order == if name in t.order then t.order else t.order + [name]
    ensures Lookup(r, name) == Some(v)
    ensures forall n :: n != name ==> Lookup(r, n) == Lookup(t, n)
  {
    var r := ScoreTable(if name in t.values then t.order else t.order + [name], t.values[name := v]);
    assert WellFormed(t) && name !in t.values ==> NoDuplicates(r.order) by {
      if WellFormed(t) && name !in t.values {
        forall i, j | 0 <= i < j < |r.order| ensures r.order[i] != r.order[j] {
          if j == |t.order| {
            assert r.order[i] == t.order[i];
          }
        }
      }
    }
    r
  }

  /** `Array.from(scores.entries())`: the entries in insertion order. */
  function Entries(t: ScoreTable): (r: seq<ScoreEntry>)
    ensures |r| == |t.order|
    ensures forall i :: 0 <= i < |r| ==> r[i].name == t.order[i]
    ensures WellFormed(t) ==> forall i :: 0 <= i < |r| ==> Lookup(t, r[i].name) == Some(r[i].score)
  {
    seq(|t.order|, i requires 0 <= i < |t.order| =>
      ScoreEntry(t.order[i], if t.order[i] in t.values then t.values[t.order[i]] else 0))
  }

  /** `incrementScore` as written: `if (score)` is false for a stored 0, so
      only a non-zero score grows. The keys and their order never change. */
  function IncrementedScores(t: ScoreTable, name: string): (r: ScoreTable)
    ensures WellFormed(t) ==> WellFormed(r) && r.order == t.order
    ensures forall n :: n != name ==> Lookup(r, n) == Lookup(t, n)
  {
    match Lookup(t, name)
    case Some(score) => if score != 0 then Store(t, name, score + 1) else t
    case None => t
  }

  /** `resetScore` as written: only a non-zero score is set to 0, so a
      present player ends at 0 and an absent one stays absent. */
  function ResetScores(t: ScoreTable, name: string): (r: ScoreTable)
    ensures WellFormed(t) ==> WellFormed(r) && r.order == t.order
    ensures Lookup(r, name) == (if Lookup(t, name) == None then None else Some(0))
    ensures forall n :: n != name ==> Lookup(r, n) == Lookup(t, n)
  {
    match Lookup(t, name)
    case Some(score) => if score != 0 then Store(t, name, 0) else t
    case None => t
  }

  /** `k` successive increments of one player's score. */
  function IncrementedTimes(t: ScoreTable, name: string, k: nat): (r: ScoreTable)
  {
    if k == 0 then t else IncrementedScores(IncrementedTimes(t, name, k - 1), name)
  }

  /** A non-zero score grows by exactly one per increment, and nobody
      else's score changes. */
  lemma IncrementNonZero(t: ScoreTable, name: string, score: int)
    requires Lookup(t, name) == Some(score) && score != 0
    ensures Lookup(IncrementedScores(t, name), name) == Some(score + 1)
    ensures forall n :: n != name ==> Lookup(IncrementedScores(t, name), n) == Lookup(t, n)
  {
  }

  /** A stored 0 is falsy: incrementing it any number of times leaves the
      table as it was. */
  lemma {:induction false} ZeroScoreStaysZero(t: ScoreTable, name: string, k: nat)
    requires Lookup(t, name) == Some(0)
    ensures IncrementedTimes(t, name, k) == t
  {
    if k > 0 {
      ZeroScoreStaysZero(t, name, k - 1);
    }
  }

  /** Joining stores 0: however often a joined player's score is
      incremented, it stays 0. */
  lemma JoinedScoreStaysZero(t: ScoreTable, name: string, k: nat)
    ensures Lookup(IncrementedTimes(Store(t, name, 0), name, k), name) == Some(0)
  {
    ZeroScoreStaysZero(Store(t, name, 0), name, k);
  }

  /** The increment evidently intended: any stored score, 0 included, grows
      by one; an absent player stays absent. */
  function IncrementedScoresIntended(t: ScoreTable, name: string): (r: ScoreTable)
    ensures WellFormed(t) ==> WellFormed(r) && r.order == t.order
    ensures Lookup(t, name).Some? ==> Lookup(r, name) == Some(Lookup(t, name).value + 1)
    ensures Lookup(t, name) == None ==> r == t
    ensures forall n :: n != name ==> Lookup(r, n) == Lookup(t, n)
  {
    match Lookup(t, name)
    case Some(score) => Store(t, name, score + 1)
    case None => t
  }

  function IncrementedTimesIntended(t: ScoreTable, name: string, k: nat): ScoreTable
  {
    if k == 0 then t else IncrementedScoresIntended(IncrementedTimesIntended(t, name, k - 1), name)
  }

  /** With the intended increment, `k` increments add exactly `k`. */
  lemma {:induction false} ScoreCountsIntended(t: ScoreTable, name: string, v: int, k: nat)
    requires Lookup(t, name) == Some(v)
    ensures Lookup(IncrementedTimesIntended(t, name, k), name) == Some(v + k)
  {
    if k > 0 {
      ScoreCountsIntended(t, name, v, k - 1);
    }
  }

  /** With the intended increment a joined player's score counts the
      increments. */
  lemma JoinedScoreCountsIntended(t: ScoreTable, name: string, k: nat)
    ensures Lookup(IncrementedTimesIntended(Store(t, name, 0), name, k), name) == Some(k as int)
  {
    ScoreCountsIntended(Store(t, name, 0), name, 0, k);
  }

  // ---------------------------------------------------------------------
  // The score board: a stable sort by descending score, numbered from 1
  // ---------------------------------------------------------------------

  predicate SortedByScoreDesc(s: seq<ScoreEntry>) {
    forall i, j :: 0 <= i < j < |s| ==> s[i].score >= s[j].score
  }

  /** The entries with score `v`, in their order in `s`. */
  function WithScore(s: seq<ScoreEntry>, v: int): seq<ScoreEntry>
  {
    if s == [] then []
    else (if s[0].score == v then [s[0]] else []) + WithScore(s[1..], v)
  }

  /** Places `x` after every entry with a higher score and before the rest. */
  function Insert(x: ScoreEntry, t: seq<ScoreEntry>): (r: seq<ScoreEntry>)
    ensures multiset(r) == multiset(t) + multiset{x}
    ensures forall y :: y in r ==> y == x || y in t
  {
    if t == [] || t[0].score <= x.score then [x] + t
    else
      assert t == [t[0]] + t[1..];
      [t[0]] + Insert(x, t[1..])
  }

  /** `Array.prototype.sort` (stable) with comparator `b - a`. */
  function SortByScoreDesc(s: seq<ScoreEntry>): (r: seq<ScoreEntry>)
    ensures multiset(r) == multiset(s)
  {
    if s == [] then []
    else
      assert s == [s[0]] + s[1..];
      Insert(s[0], SortByScoreDesc(s[1..]))
  }

  lemma SortedTail(t: seq<ScoreEntry>)
    requires SortedByScoreDesc(t) && t != []
    ensures SortedByScoreDesc(t[1..])
    ensures forall y :: y in t[1..] ==> y.score <= t[0].score
  {
    forall i, j | 0 <= i < j < |t[1..]| ensures t[1..][i].score >= t[1..][j].score {
      assert t[1..][i] == t[i + 1] && t[1..][j] == t[j + 1];
    }
    forall y | y in t[1..] ensures y.score <= t[0].score {
      var k :| 0 <= k < |t[1..]| && t[1..][k] == y;
      assert t[k + 1] == y;
    }
  }

  /** A sequence is sorted when its head is the highest score and its tail is sorted. */
  lemma SortedCons(y: ScoreEntry, u: seq<ScoreEntry>)
    requires SortedByScoreDesc(u)
    requires forall z :: z in u ==> z.score <= y.score
    ensures SortedByScoreDesc([y] + u)
  {
    var r := [y] + u;
    forall i, j | 0 <= i < j < |r| ensures r[i].score >= r[j].score {
      assert r[j] == u[j - 1];
      if i > 0 {
        assert r[i] == u[i - 1];
      } else {
        assert u[j - 1] in u;
      }
    }
  }

  lemma {:induction false} InsertSorted(x: ScoreEntry, t: seq<ScoreEntry>)
    requires SortedByScoreDesc(t)
    ensures SortedByScoreDesc(Insert(x, t))
  {
    if t == [] || t[0].score <= x.score {
      if t != [] {
        SortedTail(t);
      }
      SortedCons(x, t);
    } else {
      SortedTail(t);
      InsertSorted(x, t[1..]);
      SortedCons(t[0], Insert(x, t[1..]));
    }
  }

  /** Inserting `x` into a sorted board puts it first among the entries
      with its score and leaves the entries with other scores in order. */
  lemma {:induction false} InsertStable(x: ScoreEntry, t: seq<ScoreEntry>)
    requires SortedByScoreDesc(t)
    ensures WithScore(Insert(x, t), x.score) == [x] + WithScore(t, x.score)
    ensures forall v :: v != x.score ==> WithScore(Insert(x, t), v) == WithScore(t, v)
  {
    if t == [] || t[0].score <= x.score {
      assert ([x] + t)[1..] == t;
    } else {
      SortedTail(t);
      InsertStable(x, t[1..]);
      var r := [t[0]] + Insert(x, t[1..]);
      assert r[1..] == Insert(x, t[1..]);
    }
  }

  lemma {:induction false} SortedAndStable(s: seq<ScoreEntry>)
    ensures SortedByScoreDesc(SortByScoreDesc(s))
    ensures forall v :: WithScore(SortByScoreDesc(s), v) == WithScore(s, v)
  {
    if s != [] {
      SortedAndStable(s[1..]);
      InsertSorted(s[0], SortByScoreDesc(s[1..]));
      InsertStable(s[0], SortByScoreDesc(s[1..]));
    }
  }

  /** Numbers the board's lines from `first`. */
  function Numbered(s: seq<ScoreEntry>, first: nat): (r: seq<RankedScore>)
    ensures |r| == |s|
    ensures forall i :: 0 <= i < |s| ==> r[i] == RankedScore(first + i, s[i].name, s[i].score)
  {
    if s == [] then [] else [RankedScore(first, s[0].name, s[0].score)] + Numbered(s[1..], first + 1)
  }

  /** The score board `displayScores` sends. */
  function ScoreList(s: seq<ScoreEntry>): seq<RankedScore>
  {
    Numbered(SortByScoreDesc(s), 1)
  }

  function Unranked(r: RankedScore): ScoreEntry { ScoreEntry(r.name, r.score) }

  /** The score board lists every entry once (a permutation of the table),
      by non-increasing score, keeping the table's order among equal scores,
      with lines numbered 1, 2, 3, ... */
  lemma ScoreListSpec(s: seq<ScoreEntry>)
    ensures var board := ScoreList(s);
            var sorted := SortByScoreDesc(s);
            && |board| == |s|
            && multiset(sorted) == multiset(s)
            && (forall i :: 0 <= i < |board| ==> board[i].rank == i + 1 && Unranked(board[i]) == sorted[i])
            && (forall i, j :: 0 <= i < j < |board| ==> board[i].score >= board[j].score)
            && (forall v :: WithScore(sorted, v) == WithScore(s, v))
  {
    SortedAndStable(s);
    var sorted := SortByScoreDesc(s);
    assert |sorted| == |s| by {
      assert |multiset(sorted)| == |multiset(s)|;
    }
  }

  // ---------------------------------------------------------------------
  // The countdown messages in the log
  // ---------------------------------------------------------------------

  /** The values of the start-countdown messages, in the order sent. */
  function Countdowns(log: seq<Outgoing>): seq<int>
  {
    if log == [] then []
    else Countdowns(log[..|log| - 1]) +
         (if log[|log| - 1].message.GameStartingIn? then [log[|log| - 1].message.seconds] else [])
  }

  predicate NoConsecutiveRepeat(s: seq<int>) {
    forall i :: 0 <= i < |s| - 1 ==> s[i] != s[i + 1]
  }

  /** No countdown value is sent twice in a row, and the last one sent is the
      remembered one. */
  predicate CountdownOk(log: seq<Outgoing>, lastCountdownTime: int) {
    var c := Countdowns(log);
    NoConsecutiveRepeat(c) && (c != [] ==> c[|c| - 1] == lastCountdownTime)
  }

  lemma CountdownOkAppend(log: seq<Outgoing>, last: int, o: Outgoing)
    requires CountdownOk(log, last)
    ensures !o.message.GameStartingIn? ==> CountdownOk(log + [o], last)
    ensures o.message.GameStartingIn? && o.message.seconds != last ==> CountdownOk(log + [o], o.message.seconds)
  {
    assert (log + [o])[..|log + [o]| - 1] == log;
  }

  // ---------------------------------------------------------------------
  // The world
  // ---------------------------------------------------------------------

  class GunWorld {
    const minPlayerCount: int
    var playState: PlayState
    var startTime: int
    var players: seq<Player>
    var roundNumber: nat
    var roundStartTime: Option<int>
    var roundEndTime: Option<int>
    var roundDuration: int
    var scores: ScoreTable
    var lastCountdownTime: int
    /** The freeze flag the world has set on each player's controller. */
    var frozen: map<Player, bool>
    var log: seq<Outgoing>
    /** Win-reset timers that have been scheduled and not yet fired. */
    var pendingWinResets: nat

    ghost predicate Valid()
      reads this
    {
      && NoDuplicates(players)
      && WellFormed(scores)
      && CountdownOk(log, lastCountdownTime)
    }

    constructor (minPlayerCount: int, now: int)
      ensures Valid()
      ensures this.minPlayerCount == minPlayerCount
      ensures playState == Waiting && startTime == now && players == [] && roundNumber == 0
      ensures roundStartTime == None && roundEndTime == None && roundDuration == RoundDuration
      ensures scores == EmptyTable && lastCountdownTime == -1 && frozen == map[] && log == []
      ensures pendingWinResets == 0
    {
      this.minPlayerCount := minPlayerCount;
      playState := Waiting;
      startTime := now;
      players := [];
      roundNumber := 0;
      roundStartTime := None;
      roundEndTime := None;
      roundDuration := RoundDuration;
      scores := EmptyTable;
      lastCountdownTime := -1;
      frozen := map[];
      log := [];
      pendingWinResets := 0;
    }

    method BroadcastGameMessage(m: Message)
      requires Valid() && !m.GameStartingIn?
      modifies this`log
      ensures Valid()
      ensures log == old(log) + [Outgoing(players, m)]
    {
      CountdownOkAppend(log, lastCountdownTime, Outgoing(players, m));
      log := log + [Outgoing(players, m)];
    }

    method IncrementScore(player: Player)
      requires Valid()
      modifies this`scores
      ensures Valid()
      ensures scores == IncrementedScores(old(scores), player.username)
    {
      var score := Lookup(scores, player.username);
      if score.Some? && score.value != 0 {
        scores := Store(scores, player.username, score.value + 1);
      }
    }

    method ResetScore(player: Player)
      requires Valid()
      modifies this`scores
      ensures Valid()
      ensures scores == ResetScores(old(scores), player.username)
    {
      var score := Lookup(scores, player.username);
      if score.Some? && score.value != 0 {
        scores := Store(scores, player.username, 0);
      }
    }

    /** The one-second tick: dispatch on the play state. `entities` are the
        players whose entities are live in the world, as the engine lists them. */
    method Tick(now: int, entities: seq<Player>)
      requires Valid()
      modifies this
      ensures Valid()
      ensures pendingWinResets == old(pendingWinResets)
      ensures players == old(players)
      ensures old(playState) == Waiting && |entities| < minPlayerCount ==> unchanged(this)
      ensures old(playState) == Waiting && |entities| >= minPlayerCount ==>
                playState == Starting && startTime == now && frozen == FrozenAs(old(frozen), entities, true)
                && log == old(log) + [Outgoing(players, GameStartingAnnouncement)]
      ensures old(playState) == Starting ==>
                var remaining := StartingRemaining(old(startTime), now);
                var shown := if remaining != old(lastCountdownTime)
                             then [Outgoing(players, GameStartingIn(remaining))] else [];
                && lastCountdownTime == remaining
                && (remaining <= 0 ==> RoundBegun(now, entities, old(roundNumber), old(frozen), old(log) + shown))
                && (remaining > 0 ==> playState == Starting && log == old(log) + shown
                                      && roundNumber == old(roundNumber) && frozen == old(frozen)
                                      && roundStartTime == old(roundStartTime))
      ensures old(playState) == Active && !Truthy(old(roundStartTime)) ==> unchanged(this)
      ensures old(playState) == Active && Truthy(old(roundStartTime)) ==>
                var left := old(roundDuration) - (now - old(roundStartTime).value);
                && (left <= 0 ==> RoundEnded(now, old(log)))
                && (0 < left <= FinalWarning ==>
                      playState == Active && roundEndTime == old(roundEndTime)
                      && log == old(log) + [Outgoing(players, RoundEndingIn(CeilDiv(left, 1000)))])
                && (FinalWarning < left ==> unchanged(this))
      ensures old(playState) == Ending ==> unchanged(this)
      ensures old(playState) == Restarting ==>
                playState == Waiting && scores == EmptyTable && roundNumber == 0
                && roundStartTime == None && roundEndTime == None && log == old(log)
      ensures roundDuration == old(roundDuration)
      ensures old(playState) != Restarting ==> scores == old(scores)
      ensures old(playState) != Waiting ==> startTime == old(startTime)
      ensures old(playState) != Starting ==> lastCountdownTime == old(lastCountdownTime)
      ensures old(playState) != Starting && old(playState) != Restarting ==>
                roundNumber == old(roundNumber) && roundStartTime == old(roundStartTime)
      ensures old(playState) != Active && old(playState) != Restarting ==> roundEndTime == old(roundEndTime)
      ensures old(playState) != Waiting && old(playState) != Starting ==> frozen == old(frozen)
    {
      match playState
      case Waiting => HandleWaitingState(now, entities);
      case Starting => HandleStartingState(now, entities);
      case Active => HandleActiveState(now);
      case Ending => HandleEndingState(now);
      case Restarting => HandleRestartingState();
    }

    method HandleWaitingState(now: int, entities: seq<Player>)
      requires Valid() && playState == Waiting
      modifies this
      ensures Valid()
      ensures |entities| < minPlayerCount ==> unchanged(this)
      ensures |entities| >= minPlayerCount ==> GameStarted(now, entities, old(frozen), old(log))
      ensures players == old(players) && scores == old(scores) && roundNumber == old(roundNumber)
      ensures roundStartTime == old(roundStartTime) && roundEndTime == old(roundEndTime)
      ensures lastCountdownTime == old(lastCountdownTime) && roundDuration == old(roundDuration)
      ensures pendingWinResets == old(pendingWinResets)
    {
      var currentPlayerCount := |entities|;
      if currentPlayerCount >= minPlayerCount {
        StartGame(now, entities);
      }
    }

    /** What starting a game leaves: STARTING, the start time, every live
        player frozen, and the announcement sent. */
    ghost predicate GameStarted(now: int, entities: seq<Player>, frozen0: map<Player, bool>, log0: seq<Outgoing>)
      reads this
    {
      playState == Starting && startTime == now && frozen == FrozenAs(frozen0, entities, true)
      && log == log0 + [Outgoing(players, GameStartingAnnouncement)]
    }

    /** Starting a game acts only from WAITING. */
    method StartGame(now: int, entities: seq<Player>)
      requires Valid()
      modifies this`playState, this`startTime, this`frozen, this`log
      ensures Valid()
      ensures old(playState) != Waiting ==> unchanged(this)
      ensures old(playState) == Waiting ==> GameStarted(now, entities, old(frozen), old(log))
    {
      if playState != Waiting {
        return;
      }
      playState := Starting;
      startTime := now;
      frozen := FrozenAs(frozen, entities, true);
      BroadcastGameMessage(GameStartingAnnouncement);
    }

    method CheckGameStart(now: int, entities: seq<Player>)
      requires Valid()
      modifies this`playState, this`startTime, this`frozen, this`log
      ensures Valid()
      ensures old(playState) == Waiting && |entities| >= minPlayerCount ==>
                GameStarted(now, entities, old(frozen), old(log))
      ensures old(playState) != Waiting || |entities| < minPlayerCount ==> unchanged(this)
    {
      if playState != Waiting {
        return;
      }
      var currentPlayerCount := |entities|;
      if currentPlayerCount >= minPlayerCount {
        StartGame(now, entities);
      }
    }

    /** The STARTING tick: show the seconds left when they differ from the
        last value shown, and begin the round once they reach 0. */
    method HandleStartingState(now: int, entities: seq<Player>)
      requires Valid() && playState == Starting
      modifies this`lastCountdownTime, this`log, this`playState, this`roundStartTime, this`roundNumber, this`frozen
      ensures Valid()
      ensures var remaining := StartingRemaining(old(startTime), now);
              var shown := if remaining != old(lastCountdownTime) then [Outgoing(old(players), GameStartingIn(remaining))] else [];
              && lastCountdownTime == remaining
              && (remaining <= 0 ==> RoundBegun(now, entities, old(roundNumber), old(frozen), old(log) + shown))
              && (remaining > 0 ==> playState == Starting && log == old(log) + shown
                                    && roundNumber == old(roundNumber) && frozen == old(frozen)
                                    && roundStartTime == old(roundStartTime))
      ensures players == old(players) && scores == old(scores) && startTime == old(startTime)
      ensures roundEndTime == old(roundEndTime) && roundDuration == old(roundDuration)
      ensures pendingWinResets == old(pendingWinResets)
    {
      var timeElapsed := now - startTime;
      var remainingTime := CeilDiv(StartCountdown - timeElapsed, 1000);
      if remainingTime != lastCountdownTime {
        ShowCountdown(remainingTime);
      }
      assert log == old(log) + (if remainingTime != old(lastCountdownTime)
                                then [Outgoing(old(players), GameStartingIn(remainingTime))] else []);
      if remainingTime <= 0 {
        BeginRound(now, entities);
      }
    }

    /** Shows a countdown value that differs from the last one shown. */
    method ShowCountdown(remaining: int)
      requires Valid() && remaining != lastCountdownTime
      modifies this`lastCountdownTime, this`log
      ensures Valid()
      ensures lastCountdownTime == remaining
      ensures log == old(log) + [Outgoing(players, GameStartingIn(remaining))]
    {
      CountdownOkAppend(log, lastCountdownTime, Outgoing(players, GameStartingIn(remaining)));
      lastCountdownTime := remaining;
      log := log + [Outgoing(players, GameStartingIn(remaining))];
    }

    /** What beginning a round leaves: ACTIVE from `now`, the round number one
        higher, every live player unfrozen, and the announcement sent. */
    ghost predicate RoundBegun(now: int, entities: seq<Player>, round0: nat, frozen0: map<Player, bool>,
                               log0: seq<Outgoing>)
      reads this
    {
      playState == Active && roundStartTime == Some(now) && roundNumber == round0 + 1
      && frozen == FrozenAs(frozen0, entities, false) && log == log0 + [Outgoing(players, RoundStarted)]
    }

    method BeginRound(now: int, entities: seq<Player>)
      requires Valid()
      modifies this`playState, this`roundStartTime, this`roundNumber, this`frozen, this`log
      ensures Valid()
      ensures RoundBegun(now, entities, old(roundNumber), old(frozen), old(log))
    {
      playState := Active;
      roundStartTime := Some(now);
      roundNumber := roundNumber + 1;
      frozen := FrozenAs(frozen, entities, false);
      BroadcastGameMessage(RoundStarted);
    }

    /** The ACTIVE tick: nothing without a round start; the round ends when
        its time is up, and a warning goes out in its last ten seconds. */
    method HandleActiveState(now: int)
      requires Valid() && playState == Active
      modifies this`playState, this`roundEndTime, this`log
      ensures Valid()
      ensures !Truthy(roundStartTime) ==> unchanged(this)
      ensures Truthy(roundStartTime) ==>
                var left := roundDuration - (now - roundStartTime.value);
                && (left <= 0 ==> RoundEnded(now, old(log)))
                && (0 < left <= FinalWarning ==>
                      playState == Active && roundEndTime == old(roundEndTime)
                      && log == old(log) + [Outgoing(players, RoundEndingIn(CeilDiv(left, 1000)))])
                && (FinalWarning < left ==> unchanged(this))
    {
      if !Truthy(roundStartTime) {
        return;
      }
      var timeElapsed := now - roundStartTime.value;
      var timeRemaining := roundDuration - timeElapsed;
      if timeRemaining <= 0 {
        EndRound(now);
      } else if timeRemaining <= FinalWarning {
        BroadcastGameMessage(RoundEndingIn(CeilDiv(timeRemaining, 1000)));
      }
    }

    /** What ending a round leaves: ENDING from `now`, "Round Over!" and the
        final score board sent to every joined player. */
    ghost predicate RoundEnded(now: int, log0: seq<Outgoing>)
      reads this
    {
      playState == Ending && roundEndTime == Some(now)
      && log == log0 + [Outgoing(players, RoundOver),
                        Outgoing(players, ScoreBoard(ScoreList(Entries(scores)), roundNumber, true))]
    }

    method EndRound(now: int)
      requires Valid()
      modifies this`playState, this`roundEndTime, this`log
      ensures Valid()
      ensures RoundEnded(now, old(log))
    {
      playState := Ending;
      roundEndTime := Some(now);
      var scores := CalculateScores();
      BroadcastGameMessage(RoundOver);
      DisplayScores(scores);
    }

    method CalculateScores() returns (s: seq<ScoreEntry>)
      ensures s == Entries(scores)
    {
      s := Entries(scores);
    }

    /** Sends the numbered board to every joined player; it is a game end
        exactly when the state is ENDING. */
    method DisplayScores(s: seq<ScoreEntry>)
      requires Valid()
      modifies this`log
      ensures Valid()
      ensures log == old(log) + [Outgoing(players, ScoreBoard(ScoreList(s), roundNumber, playState == Ending))]
    {
      var scoreList := ScoreList(s);
      var isGameEnd := playState == Ending;
      BroadcastScores(ScoreBoard(scoreList, roundNumber, isGameEnd));
    }

    method BroadcastScores(m: Message)
      requires Valid() && m.ScoreBoard?
      modifies this`log
      ensures Valid()
      ensures log == old(log) + [Outgoing(players, m)]
    {
      CountdownOkAppend(log, lastCountdownTime, Outgoing(players, m));
      log := log + [Outgoing(players, m)];
    }

    /** The ENDING tick changes nothing: it waits until the results have
        been up for `EndScreenDuration`, but the restart that should follow is
        missing, so ENDING is never left by ticking. */
    method HandleEndingState(now: int)
      ensures unchanged(this)
    {
      if !Truthy(roundEndTime) {
        return;
      }
      var timeElapsed := now - roundEndTime.value;
      if timeElapsed >= EndScreenDuration {
        // no restart step follows
      }
    }

    method RestartGame()
      modifies this`playState
      ensures playState == Restarting
    {
      playState := Restarting;
    }

    method HandleRestartingState()
      requires Valid()
      modifies this`playState, this`scores, this`roundNumber, this`roundStartTime, this`roundEndTime
      ensures Valid()
      ensures playState == Waiting && scores == EmptyTable && roundNumber == 0
      ensures roundStartTime == None && roundEndTime == None
    {
      playState := Waiting;
      ResetGame();
    }

    method ResetGame()
      requires Valid()
      modifies this`scores, this`roundNumber, this`roundStartTime, this`roundEndTime
      ensures Valid()
      ensures scores == EmptyTable && roundNumber == 0 && roundStartTime == None && roundEndTime == None
    {
      scores := EmptyTable;
      roundNumber := 0;
      roundStartTime := None;
      roundEndTime := None;
    }

    /** A player joins: listed once, score set to 0 (again on a rejoin),
        frozen unless a round is in progress, told the player count, and the
        game starts if enough players are present. `entities` includes the
        entity just spawned for the player. */
    method OnPlayerJoin(player: Player, now: int, entities: seq<Player>)
      requires Valid()
      modifies this`players, this`scores, this`frozen, this`log, this`playState, this`startTime
      ensures Valid()
      ensures players == if player in old(players) then old(players) else old(players) + [player]
      ensures scores == Store(old(scores), player.username, 0)
      ensures var frozen1 := old(frozen)[player := old(playState) != Active];
              var log1 := old(log) + [Outgoing(players, PlayerCount(|entities|, minPlayerCount))];
              if old(playState) == Waiting && |entities| >= minPlayerCount then
                GameStarted(now, entities, frozen1, log1)
              else
                frozen == frozen1 && log == log1 && playState == old(playState) && startTime == old(startTime)
    {
      Register(player);
      BroadcastGameMessage(PlayerCount(|entities|, minPlayerCount));
      CheckGameStart(now, entities);
    }

    /** The bookkeeping of a join: listed once, score 0, frozen unless a
        round is in progress. */
    method Register(player: Player)
      requires Valid()
      modifies this`players, this`scores, this`frozen
      ensures Valid()
      ensures players == if player in old(players) then old(players) else old(players) + [player]
      ensures scores == Store(old(scores), player.username, 0)
      ensures frozen == old(frozen)[player := playState != Active]
    {
      if player !in players {
        players := players + [player];
        assert NoDuplicates(players) by {
          forall i, j | 0 <= i < j < |players| ensures players[i] != players[j] {
            if j == |players| - 1 {
              assert players[i] in old(players);
            }
          }
        }
      }
      scores := Store(scores, player.username, 0);
      var shouldFreeze := playState != Active;
      frozen := frozen[player := shouldFreeze];
    }

    /** A player leaves: removed from the list, the others keep their order;
        the score table is untouched. */
    method OnPlayerLeave(player: Player, entities: seq<Player>)
      requires Valid()
      modifies this`players, this`log
      ensures Valid()
      ensures players == Without(old(players), player)
      ensures log == old(log) + [Outgoing(players, PlayerCount(|entities|, minPlayerCount))]
    {
      players := Without(players, player);
      BroadcastGameMessage(PlayerCount(|entities|, minPlayerCount));
    }

    method GetRoundTimeRemaining(now: int) returns (r: int)
      ensures r == RoundTimeRemaining(roundStartTime, roundDuration, now)
    {
      if !Truthy(roundStartTime) {
        return 0;
      }
      r := roundDuration - (now - roundStartTime.value);
      if r < 0 {
        r := 0;
      }
    }

    /** A win: announce the winner and schedule the reset; the play state is
        left alone until the reset fires. */
    method HandleGameWin(winner: Player)
      requires Valid()
      modifies this`log, this`pendingWinResets
      ensures Valid()
      ensures log == old(log) + [Outgoing(players, Winner(winner.username))]
      ensures pendingWinResets == old(pendingWinResets) + 1
    {
      BroadcastGameMessage(Winner(winner.username));
      pendingWinResets := pendingWinResets + 1;
    }

    /** The scheduled reset after a win: a fresh WAITING state from `now` with
        the same players, no round times and an empty score table; every
        joined player respawned frozen (the state is not ACTIVE); then the
        start check. `entities` lists the respawned players' entities. */
    method CompleteWinReset(now: int, entities: seq<Player>)
      requires Valid()
      modifies this
      ensures Valid()
      ensures lastCountdownTime == old(lastCountdownTime)
      ensures old(pendingWinResets) == 0 ==> unchanged(this)
      ensures old(pendingWinResets) > 0 ==>
                && pendingWinResets == old(pendingWinResets) - 1
                && players == old(players) && roundNumber == 0 && scores == EmptyTable
                && roundStartTime == None && roundEndTime == None && roundDuration == RoundDuration
                && var frozen1 := FrozenAs(old(frozen), old(players), true);
                   if |entities| >= minPlayerCount then GameStarted(now, entities, frozen1, old(log))
                   else playState == Waiting && startTime == now && frozen == frozen1 && log == old(log)
    {
      if pendingWinResets == 0 {
        return;
      }
      pendingWinResets := pendingWinResets - 1;
      startTime := now;
      playState := Waiting;
      roundNumber := 0;
      roundDuration := RoundDuration;
      scores := EmptyTable;
      roundStartTime := None;
      roundEndTime := None;
      frozen := FrozenAs(frozen, players, true);
      CheckGameStart(now, entities);
    }
  }
}
