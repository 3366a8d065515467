/** The in-round screen: the local stroke log kept in step with the server, the intents it
    emits, the sabotage target rule, the timer text, the masked word and the score board. */
module Game {
  import opened Wrappers
  import opened Intents
  import Canvas
  import JsString

  datatype Player = Player(id: string, nickname: string, avatar: int, score: int, coins: int,
                           inventory: seq<string>)

  /** A chat line; `kind` is the message type ('system-near' and the server's own types). */
  datatype Message = Message(id: int, kind: string, text: string)

  /** The `game_state` object the server pushes. Absent JavaScript fields are `None`, or the
      falsy value the client treats them as ("" for strings, 0 for numbers). */
  datatype Snapshot = Snapshot(
    status: string,
    players: Option<seq<Player>>,
    currentDrawerId: string,
    hostId: string,
    round: int,
    maxRounds: int,
    timeLeft: int,
    strokes: Option<seq<Canvas.Stroke>>,
    sabotagesActive: seq<Canvas.Effect>,
    currentWord: string,
    wordLength: int,
    maskedWord: string,
    guessedPlayers: seq<string>)

  // ---------------------------------------------------------------------------------------
  // Who is who
  // ---------------------------------------------------------------------------------------

  /** `players.find(p => p.id === uid)`: the first player with that id, if any. */
  function FindPlayer(players: seq<Player>, uid: string): (r: Option<Player>)
    ensures r.None? <==> forall i :: 0 <= i < |players| ==> players[i].id != uid
    ensures r.Some? ==> exists i :: 0 <= i < |players| && players[i] == r.value && r.value.id == uid &&
                                    forall j :: 0 <= j < i ==> players[j].id != uid
  {
    if players == [] then None
    else if players[0].id == uid then Some(players[0])
    else
      var r := FindPlayer(players[1..], uid);
      assert forall i :: 0 <= i < |players| - 1 ==> players[1..][i] == players[i + 1];
      r
  }

  /** `myPlayer.coins || 0`. */
  function MyCoins(players: seq<Player>, uid: string): int {
    match FindPlayer(players, uid)
    case Some(p) => p.coins
    case None => 0
  }

  /** `myPlayer.inventory || []`. */
  function MyInventory(players: seq<Player>, uid: string): seq<string> {
    match FindPlayer(players, uid)
    case Some(p) => p.inventory
    case None => []
  }

  /** The `isDrawer` flag handed to the canvas: drawing is on only for the drawer and only
      while the round is in its drawing phase. */
  predicate CanvasDrawerFlag(currentDrawerId: string, uid: string, status: string) {
    currentDrawerId == uid && status == "DRAWING"
  }

  /** At most one viewer at a time has a canvas that accepts drawing. */
  lemma DrawerFlagExclusive(currentDrawerId: string, u1: string, u2: string, status: string)
    requires CanvasDrawerFlag(currentDrawerId, u1, status) && CanvasDrawerFlag(currentDrawerId, u2, status)
    ensures u1 == u2
  {
  }

  /** One gesture on the canvas the screen mounts for viewer `uid`: press at `p`, drag to `q`,
      release. Outside the drawing phase, or for anyone but the drawer, the gesture changes
      nothing and sends nothing; the drawer's gesture commits the stroke through `p` and `q`
      with the canvas's current tool, colour and width. */
  method Gesture(c: Canvas.CanvasState, currentDrawerId: string, uid: string, status: string,
                 effects: seq<Canvas.Effect>, p: Canvas.Point, q: Canvas.Point, clock: int)
    returns (emitted: Option<Canvas.Stroke>)
    requires c.Valid()
    modifies c
    ensures c.Valid()
    ensures !CanvasDrawerFlag(currentDrawerId, uid, status) ==>
      emitted.None? && c.isDrawing == old(c.isDrawing) && c.currentPoints == old(c.currentPoints)
    ensures CanvasDrawerFlag(currentDrawerId, uid, status) ==>
      !c.isDrawing && c.currentPoints == [] &&
      emitted == Some(Canvas.MakeStroke(c.tool, [p, q], c.color, c.width, Canvas.IsInvisibleInk(effects, uid), clock))
    ensures c.color == old(c.color) && c.width == old(c.width) && c.tool == old(c.tool)
  {
    var enabled := CanvasDrawerFlag(currentDrawerId, uid, status);
    c.StartDrawing(enabled, p);
    c.Draw(enabled, q);
    assert enabled ==> c.currentPoints == [p, q];
    emitted := c.StopDrawing(enabled, effects, uid, clock);
  }

  /** The target `handleUseSabotage` sends: the drawer attacks all guessers, a guesser
      attacks the drawer. */
  function SabotageTarget(myId: string, currentDrawerId: string): (t: string)
    ensures myId == currentDrawerId ==> t == Canvas.ALL_GUESSERS
    ensures myId != currentDrawerId ==> t == currentDrawerId
    ensures myId != Canvas.ALL_GUESSERS ==> t != myId
  {
    if currentDrawerId == myId then Canvas.ALL_GUESSERS else currentDrawerId
  }

  // ---------------------------------------------------------------------------------------
  // formatTime
  // ---------------------------------------------------------------------------------------

  predicate IsDigit(c: char) {
    '0' <= c <= '9'
  }

  predicate AllDigits(s: string) {
    forall k :: 0 <= k < |s| ==> IsDigit(s[k])
  }

  function DigitChar(d: nat): (c: char)
    requires d < 10
    ensures IsDigit(c)
  {
    ('0' as int + d) as char
  }

  function DigitValue(c: char): (d: nat)
    requires IsDigit(c)
    ensures d < 10
  {
    c as int - '0' as int
  }

  /** `n.toString()` for a natural number: its decimal digits, without leading zeros. */
  function Decimal(n: nat): (s: string)
    ensures AllDigits(s)
    ensures n < 10 <==> |s| == 1
    ensures 10 <= n < 100 ==> |s| == 2
    ensures |s| > 1 ==> s[0] != '0'
  {
    if n < 10 then [DigitChar(n)] else Decimal(n / 10) + [DigitChar(n % 10)]
  }

  /** The value of a string of decimal digits. */
  function ParseDecimal(s: string): nat
    requires AllDigits(s)
  {
    if s == [] then 0 else ParseDecimal(s[..|s| - 1]) * 10 + DigitValue(s[|s| - 1])
  }

  lemma {:induction false} DecimalRoundTrip(n: nat)
    ensures ParseDecimal(Decimal(n)) == n
  {
    if n >= 10 {
      var s := Decimal(n);
      assert s[..|s| - 1] == Decimal(n / 10);
      DecimalRoundTrip(n / 10);
    }
  }

  /** `s.padStart(2, '0')`: at least two characters, ending with `s`, any padding zeros. */
  function PadStart2(s: string): (r: string)
    ensures |r| == if |s| >= 2 then |s| else 2
    ensures r[|r| - |s|..] == s
    ensures forall k :: 0 <= k < |r| - |s| ==> r[k] == '0'
  {
    if |s| >= 2 then s else if |s| == 1 then "0" + s else "00"
  }

  /** `formatTime(seconds)`: minutes, a colon and the seconds in two digits. */
  function FormatTime(seconds: nat): (r: string)
    ensures |r| >= 4 && r[|r| - 3] == ':'
    ensures AllDigits(r[..|r| - 3]) && AllDigits(r[|r| - 2..])
    ensures r[..|r| - 3] == Decimal(seconds / 60)
  {
    var secs := PadStart2(Decimal(seconds % 60));
    assert |secs| == 2;
    Decimal(seconds / 60) + ":" + secs
  }

  /** Reads a `m:ss` clock back: the inverse of `FormatTime`. */
  function ParseClock(r: string): Option<nat> {
    if |r| >= 4 && r[|r| - 3] == ':' && AllDigits(r[..|r| - 3]) && AllDigits(r[|r| - 2..]) then
      var mins, secs := ParseDecimal(r[..|r| - 3]), ParseDecimal(r[|r| - 2..]);
      if secs < 60 then Some(mins * 60 + secs) else None
    else None
  }

  /** The minutes and the two-digit seconds of `formatTime(s)` give back `s`, with the seconds
      below 60. */
  lemma FormatTimeRoundTrip(seconds: nat)
    ensures ParseClock(FormatTime(seconds)) == Some(seconds)
    ensures ParseDecimal(FormatTime(seconds)[|FormatTime(seconds)| - 2..]) == seconds % 60
  {
    var r := FormatTime(seconds);
    assert ParseDecimal(r[..|r| - 3]) == seconds / 60 by {
      DecimalRoundTrip(seconds / 60);
    }
    ClockSeconds(seconds);
    MinutesAndSeconds(seconds);
  }

  lemma MinutesAndSeconds(n: nat)
    ensures n / 60 * 60 + n % 60 == n && n % 60 < 60
  {
  }

  lemma ClockSeconds(seconds: nat)
    ensures ParseDecimal(FormatTime(seconds)[|FormatTime(seconds)| - 2..]) == seconds % 60
  {
    var r := FormatTime(seconds);
    assert r[|r| - 2..] == PadStart2(Decimal(seconds % 60));
    PaddedSeconds(seconds % 60);
  }

  /** Padding the seconds to two digits keeps their value. */
  lemma PaddedSeconds(n: nat)
    requires n < 60
    ensures |PadStart2(Decimal(n))| == 2 && AllDigits(PadStart2(Decimal(n)))
    ensures ParseDecimal(PadStart2(Decimal(n))) == n
  {
    var d := Decimal(n);
    var t := PadStart2(d);
    DecimalRoundTrip(n);
    if |d| == 1 {
      assert t == ['0', d[0]];
      assert t[..1] == ['0'] && ['0'][..0] == [] && d[..0] == [];
    } else {
      assert t == d;
    }
  }

  /** Different times never show the same text. */
  lemma FormatTimeInjective(s1: nat, s2: nat)
    requires FormatTime(s1) == FormatTime(s2)
    ensures s1 == s2
  {
    FormatTimeRoundTrip(s1);
    FormatTimeRoundTrip(s2);
  }

  // ---------------------------------------------------------------------------------------
  // The word banner
  // ---------------------------------------------------------------------------------------

  /** The letter slots under the word: `wordLength` of them, slot `i` showing the `i`-th
      character of `maskedWord` when there is one. */
  function MaskedSlots(wordLength: nat, maskedWord: string): (slots: seq<string>)
    ensures |slots| == wordLength
    ensures forall i :: 0 <= i < wordLength ==>
      slots[i] == if i < |maskedWord| then [maskedWord[i]] else ""
  {
    seq(wordLength, i requires 0 <= i < wordLength => if i < |maskedWord| then [maskedWord[i]] else "")
  }

  function Concat(slots: seq<string>): string {
    if slots == [] then "" else slots[0] + Concat(slots[1..])
  }

  /** Read left to right, the slots spell the start of `maskedWord`, cut at `wordLength`. */
  lemma {:induction false} MaskedSlotsSpell(wordLength: nat, maskedWord: string)
    ensures Concat(MaskedSlots(wordLength, maskedWord)) ==
      if wordLength <= |maskedWord| then maskedWord[..wordLength] else maskedWord
    decreases wordLength
  {
    if wordLength > 0 {
      var n := wordLength - 1;
      var slots := MaskedSlots(wordLength, maskedWord);
      assert slots == MaskedSlots(n, maskedWord) + [slots[n]];
      ConcatSnoc(MaskedSlots(n, maskedWord), slots[n]);
      MaskedSlotsSpell(n, maskedWord);
      if wordLength <= |maskedWord| {
        assert maskedWord[..wordLength] == maskedWord[..n] + [maskedWord[n]];
      }
    }
  }

  lemma {:induction false} ConcatSnoc(slots: seq<string>, last: string)
    ensures Concat(slots + [last]) == Concat(slots) + last
  {
    if slots != [] {
      assert (slots + [last])[1..] == slots[1..] + [last];
      ConcatSnoc(slots[1..], last);
    }
  }

  datatype Banner =
    | ShowWord(word: string)          // the drawer sees the word
    | ShowSlots(slots: seq<string>)   // a guesser sees the masked letters
    | ShowUnknown                     // a guesser before the word length is known
    | ShowWaiting                     // not in the drawing phase

  /** The header banner. `drawerWord` is the word from the private drawer channel, "" when
      absent. */
  function WordBanner(status: string, isDrawer: bool, drawerWord: string, currentWord: string,
                      wordLength: int, maskedWord: string): Banner
  {
    if status != "DRAWING" then ShowWaiting
    else if isDrawer then ShowWord(if drawerWord != "" then drawerWord else currentWord)
    else if wordLength > 0 then ShowSlots(MaskedSlots(wordLength, maskedWord))
    else ShowUnknown
  }

  /** A guesser's banner depends neither on the drawer's private word nor on `currentWord`. */
  lemma GuesserBannerHidesWord(status: string, w1: string, w2: string, c1: string, c2: string,
                               wordLength: int, maskedWord: string)
    ensures WordBanner(status, false, w1, c1, wordLength, maskedWord) ==
            WordBanner(status, false, w2, c2, wordLength, maskedWord)
    ensures WordBanner(status, false, w1, c1, wordLength, maskedWord) != ShowWord(w1)
  {
  }

  datatype Overlay =
    | WordOptions(options: seq<WordChoice>)   // the drawer picks the word
    | DrawerChoosing                           // the others wait for the pick
    | RoundWord(word: string)                  // the word is revealed at the end of the round

  /** The overlays laid over the canvas. `options` is the drawer's private list, [] when
      absent. */
  function Overlays(status: string, isDrawer: bool, options: seq<WordChoice>, currentWord: string)
    : (r: seq<Overlay>)
    ensures |r| <= 1
    ensures r == [] <==> status != "CHOOSING_WORD" && status != "ROUND_END"
    ensures status == "CHOOSING_WORD" ==> r == [if isDrawer then WordOptions(options) else DrawerChoosing]
    ensures status == "ROUND_END" ==> r == [RoundWord(currentWord)]
    ensures forall k :: 0 <= k < |r| && r[k].WordOptions? ==> isDrawer
  {
    (if status == "CHOOSING_WORD" then [if isDrawer then WordOptions(options) else DrawerChoosing] else [])
    + (if status == "ROUND_END" then [RoundWord(currentWord)] else [])
  }

  // ---------------------------------------------------------------------------------------
  // The score board
  // ---------------------------------------------------------------------------------------

  predicate NonIncreasing(ps: seq<Player>) {
    forall i, j :: 0 <= i < j < |ps| ==> ps[i].score >= ps[j].score
  }

  /** Puts `p` in front of the first player whose score is not higher. */
  function Insert(p: Player, sorted: seq<Player>): (r: seq<Player>)
    ensures multiset(r) == multiset(sorted) + multiset{p}
    ensures |r| == |sorted| + 1
  {
    if sorted == [] || sorted[0].score <= p.score then [p] + sorted
    else
      assert sorted == [sorted[0]] + sorted[1..];
      [sorted[0]] + Insert(p, sorted[1..])
  }

  lemma {:induction false} InsertKeepsOrder(p: Player, sorted: seq<Player>)
    requires NonIncreasing(sorted)
    ensures NonIncreasing(Insert(p, sorted))
    ensures Insert(p, sorted)[0] == p || (sorted != [] && Insert(p, sorted)[0] == sorted[0])
  {
    if !(sorted == [] || sorted[0].score <= p.score) {
      var rest := Insert(p, sorted[1..]);
      InsertKeepsOrder(p, sorted[1..]);
      assert rest[0].score <= sorted[0].score;
      assert Insert(p, sorted) == [sorted[0]] + rest;
    }
  }

  /** `players.sort((a, b) => b.score - a.score)`, a stable sort by decreasing score. */
  function SortByScore(ps: seq<Player>): (r: seq<Player>)
    ensures NonIncreasing(r)
    ensures multiset(r) == multiset(ps)
    ensures |r| == |ps|
  {
    if ps == [] then []
    else
      assert ps == [ps[0]] + ps[1..];
      var rest := SortByScore(ps[1..]);
      InsertKeepsOrder(ps[0], rest);
      Insert(ps[0], rest)
  }

  /** The players with score `k`, in order. */
  function WithScore(ps: seq<Player>, k: int): seq<Player> {
    if ps == [] then [] else (if ps[0].score == k then [ps[0]] else []) + WithScore(ps[1..], k)
  }

  lemma {:induction false} WithScoreAppend(a: seq<Player>, b: seq<Player>, k: int)
    ensures WithScore(a + b, k) == WithScore(a, k) + WithScore(b, k)
  {
    if a != [] {
      assert (a + b)[1..] == a[1..] + b;
      WithScoreAppend(a[1..], b, k);
    } else {
      assert a + b == b;
    }
  }

  lemma WithScoreOne(p: Player, k: int)
    ensures WithScore([p], k) == if p.score == k then [p] else []
  {
    assert [p][1..] == [];
    assert WithScore([], k) == [];
  }

  lemma {:induction false} InsertWithScore(p: Player, sorted: seq<Player>, k: int)
    ensures WithScore(Insert(p, sorted), k) == (if p.score == k then [p] else []) + WithScore(sorted, k)
  {
    var mine := WithScore([p], k);
    WithScoreOne(p, k);
    if sorted == [] || sorted[0].score <= p.score {
      assert Insert(p, sorted) == [p] + sorted;
      WithScoreAppend([p], sorted, k);
    } else {
      var rest := Insert(p, sorted[1..]);
      var head := WithScore([sorted[0]], k);
      var tail := WithScore(sorted[1..], k);
      assert head == [] || mine == [] by {
        WithScoreOne(sorted[0], k);
      }
      assert WithScore(Insert(p, sorted), k) == head + WithScore(rest, k) by {
        assert Insert(p, sorted) == [sorted[0]] + rest;
        WithScoreAppend([sorted[0]], rest, k);
      }
      assert WithScore(rest, k) == mine + tail by {
        InsertWithScore(p, sorted[1..], k);
      }
      assert WithScore(sorted, k) == head + tail by {
        assert sorted == [sorted[0]] + sorted[1..];
        WithScoreAppend([sorted[0]], sorted[1..], k);
      }
      SwapEmpty(head, mine, tail);
    }
  }

  lemma SwapEmpty(a: seq<Player>, b: seq<Player>, t: seq<Player>)
    requires a == [] || b == []
    ensures a + (b + t) == b + (a + t)
  {
    if a == [] {
      assert a + (b + t) == b + t && a + t == t;
    } else {
      assert b + t == t && b + (a + t) == a + t;
    }
  }

  /** The sort is stable: players with equal scores keep their relative order. */
  lemma {:induction false} SortByScoreStable(ps: seq<Player>, k: int)
    ensures WithScore(SortByScore(ps), k) == WithScore(ps, k)
  {
    if ps != [] {
      SortByScoreStable(ps[1..], k);
      InsertWithScore(ps[0], SortByScore(ps[1..]), k);
    }
  }

  /** One line of the player list: its 1-based place and the drawer, guessed and host marks. */
  datatype BoardRow = BoardRow(rank: nat, player: Player, drawing: bool, guessed: bool, host: bool)

  /** The player list, best score first. `guessedPlayers` is [] when absent. */
  function ScoreBoard(players: seq<Player>, currentDrawerId: string, guessedPlayers: seq<string>,
                      hostId: string): (rows: seq<BoardRow>)
    ensures |rows| == |players|
    ensures forall i, j :: 0 <= i < j < |rows| ==> rows[i].player.score >= rows[j].player.score
    ensures forall i :: 0 <= i < |rows| ==>
      rows[i].rank == i + 1 &&
      rows[i].player == SortByScore(players)[i] &&
      (rows[i].drawing <==> rows[i].player.id == currentDrawerId) &&
      (rows[i].guessed <==> rows[i].player.id in guessedPlayers) &&
      (rows[i].host <==> rows[i].player.id == hostId)
  {
    var sorted := SortByScore(players);
    seq(|sorted|, i requires 0 <= i < |sorted| =>
      BoardRow(i + 1, sorted[i], sorted[i].id == currentDrawerId, sorted[i].id in guessedPlayers,
               sorted[i].id == hostId))
  }

  /** A player is on the board exactly when the snapshot lists them. */
  lemma ScoreBoardListsEveryone(players: seq<Player>, currentDrawerId: string,
                                guessedPlayers: seq<string>, hostId: string, p: Player)
    ensures p in players <==>
      exists i :: 0 <= i < |players| && ScoreBoard(players, currentDrawerId, guessedPlayers, hostId)[i].player == p
  {
    var sorted := SortByScore(players);
    assert p in players <==> p in multiset(sorted);
    if p in players {
      var i :| 0 <= i < |sorted| && sorted[i] == p;
      assert ScoreBoard(players, currentDrawerId, guessedPlayers, hostId)[i].player == p;
    }
  }

  // ---------------------------------------------------------------------------------------
  // The component's state and event handlers
  // ---------------------------------------------------------------------------------------

  /** The text of the chat notice for a sabotage used by `sourceName`. */
  function SabotageNotice(kind: string, sourceName: string): string {
    sourceName + " usou " + JsString.ToUpper(kind) + "!"
  }

  class GameView {
    const roomCode: string
    var localStrokes: seq<Canvas.Stroke>
    var messages: seq<Message>
    var timeLeft: int
    /** The `gameState.timeLeft` the timer effect last ran for. */
    var syncedTime: int
    /** What the handlers have passed to `socket.emit`, oldest first. */
    var outbox: seq<Intent>

    constructor(roomCode: string, initialTimeLeft: int)
      ensures this.roomCode == roomCode
      ensures localStrokes == [] && messages == [] && timeLeft == initialTimeLeft && outbox == []
      ensures syncedTime == initialTimeLeft
    {
      this.roomCode := roomCode;
      localStrokes := [];
      messages := [];
      timeLeft := initialTimeLeft;
      syncedTime := initialTimeLeft;
      outbox := [];
    }

    /** The snapshot effect: a snapshot that carries a stroke array, even an empty one,
        replaces the log; one without leaves it alone. Each snapshot from the server carries
        a fresh array, so the effect runs for every snapshot. */
    method SyncStrokes(strokes: Option<seq<Canvas.Stroke>>)
      modifies this
      ensures localStrokes == if strokes.Some? then strokes.value else old(localStrokes)
      ensures messages == old(messages) && timeLeft == old(timeLeft) && syncedTime == old(syncedTime) && outbox == old(outbox)
    {
      if strokes.Some? {
        localStrokes := strokes.value;
      }
    }

    /** A snapshot arrives with timer `t` (an absent time as 0). The effect
        `setTimeLeft(gameState.timeLeft || 0)` runs only when that value differs from the one
        it last ran for, so a snapshot repeating the old value keeps a time set by a pulse. */
    method SyncTime(t: int)
      modifies this
      ensures t != old(syncedTime) ==> timeLeft == t
      ensures t == old(syncedTime) ==> timeLeft == old(timeLeft) && syncedTime == old(syncedTime)
      ensures syncedTime == t
      ensures localStrokes == old(localStrokes) && messages == old(messages) && outbox == old(outbox)
    {
      if t != syncedTime {
        timeLeft := t;
      }
      syncedTime := t;
    }

    /** `new_stroke` from the server. */
    method OnNewStroke(s: Canvas.Stroke)
      modifies this
      ensures localStrokes == old(localStrokes) + [s]
      ensures messages == old(messages) && timeLeft == old(timeLeft) && syncedTime == old(syncedTime) && outbox == old(outbox)
    {
      localStrokes := localStrokes + [s];
    }

    /** `chat_message` from the server. */
    method OnChatMessage(m: Message)
      modifies this
      ensures messages == old(messages) + [m]
      ensures localStrokes == old(localStrokes) && timeLeft == old(timeLeft) && syncedTime == old(syncedTime) && outbox == old(outbox)
    {
      messages := messages + [m];
    }

    /** `canvas_cleared` from the server. */
    method OnCanvasCleared()
      modifies this
      ensures localStrokes == []
      ensures messages == old(messages) && timeLeft == old(timeLeft) && syncedTime == old(syncedTime) && outbox == old(outbox)
    {
      localStrokes := [];
    }

    /** `sabotage_triggered`: a 'system-near' notice stamped with `clock` (`Date.now()`). */
    method OnSabotageTriggered(kind: string, sourceName: string, clock: int)
      modifies this
      ensures messages == old(messages) + [Message(clock, "system-near", SabotageNotice(kind, sourceName))]
      ensures localStrokes == old(localStrokes) && timeLeft == old(timeLeft) && syncedTime == old(syncedTime) && outbox == old(outbox)
    {
      messages := messages + [Message(clock, "system-near", SabotageNotice(kind, sourceName))];
    }

    /** `timer_pulse` from the server. */
    method OnTimerPulse(t: int)
      modifies this
      ensures timeLeft == t
      ensures syncedTime == old(syncedTime)
      ensures localStrokes == old(localStrokes) && messages == old(messages) && outbox == old(outbox)
    {
      timeLeft := t;
    }

    /** A stroke committed locally is drawn at once and sent; its later echo from the server
        is appended again by `OnNewStroke`, without any de-duplication. */
    method DrawStroke(s: Canvas.Stroke)
      modifies this
      ensures localStrokes == old(localStrokes) + [s]
      ensures outbox == old(outbox) + [Intent.DrawStroke(roomCode, s)]
      ensures messages == old(messages) && timeLeft == old(timeLeft) && syncedTime == old(syncedTime)
    {
      localStrokes := localStrokes + [s];
      outbox := outbox + [Intent.DrawStroke(roomCode, s)];
    }

    method ClearCanvas()
      modifies this
      ensures localStrokes == []
      ensures outbox == old(outbox) + [Intent.ClearCanvas(roomCode)]
      ensures messages == old(messages) && timeLeft == old(timeLeft) && syncedTime == old(syncedTime)
    {
      localStrokes := [];
      outbox := outbox + [Intent.ClearCanvas(roomCode)];
    }

    method SendMessage(text: string)
      modifies this
      ensures outbox == old(outbox) + [Intent.SendMessage(roomCode, text)]
      ensures localStrokes == old(localStrokes) && messages == old(messages) && timeLeft == old(timeLeft) && syncedTime == old(syncedTime)
    {
      outbox := outbox + [Intent.SendMessage(roomCode, text)];
    }

    method ChooseWord(w: WordChoice)
      modifies this
      ensures outbox == old(outbox) + [Intent.ChooseWord(roomCode, w)]
      ensures localStrokes == old(localStrokes) && messages == old(messages) && timeLeft == old(timeLeft) && syncedTime == old(syncedTime)
    {
      outbox := outbox + [Intent.ChooseWord(roomCode, w)];
    }

    method GiveHint()
      modifies this
      ensures outbox == old(outbox) + [Intent.GiveHint(roomCode)]
      ensures localStrokes == old(localStrokes) && messages == old(messages) && timeLeft == old(timeLeft) && syncedTime == old(syncedTime)
    {
      outbox := outbox + [Intent.GiveHint(roomCode)];
    }

    method BuySabotage(itemId: string)
      modifies this
      ensures outbox == old(outbox) + [Intent.BuySabotage(roomCode, itemId)]
      ensures localStrokes == old(localStrokes) && messages == old(messages) && timeLeft == old(timeLeft) && syncedTime == old(syncedTime)
    {
      outbox := outbox + [Intent.BuySabotage(roomCode, itemId)];
    }

    /** `handleUseSabotage(itemId)` for the viewer `myId` while `currentDrawerId` draws. */
    method UseSabotage(itemId: string, myId: string, currentDrawerId: string)
      modifies this
      ensures outbox == old(outbox) + [Intent.UseSabotage(roomCode, itemId, SabotageTarget(myId, currentDrawerId))]
      ensures localStrokes == old(localStrokes) && messages == old(messages) && timeLeft == old(timeLeft) && syncedTime == old(syncedTime)
    {
      var targetId := SabotageTarget(myId, currentDrawerId);
      outbox := outbox + [Intent.UseSabotage(roomCode, itemId, targetId)];
    }
  }
}
