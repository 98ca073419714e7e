/** The arena endpoints (backend/apps/arena/views.py): starting a quiz
    normalises the requested topic to a key and reads (or creates) the
    player's mastery of it; submitting a score always adds the XP to the
    global profile and climbs the topic's mastery only when the quiz was
    passed. Database rows are held as values: the profile by its fields and
    the masteries as a map from topic to level and tier. */
module ArenaViews {
  import opened Common
  import opened ArenaModels

  // ---------------------------------------------------------------------
  // Python's str.strip() and str.split()

  /** `s` without its leading whitespace. */
  function SkipSpaces(s: string): (r: string)
    ensures |r| <= |s| && r == s[|s| - |r|..]
    ensures forall j :: 0 <= j < |s| - |r| ==> IsPySpace(s[j])
    ensures r == [] || !IsPySpace(r[0])
  {
    if s != [] && IsPySpace(s[0]) then
      var r := SkipSpaces(s[1..]);
      assert s[1..][|s| - 1 - |r|..] == s[|s| - |r|..];
      assert forall j :: 1 <= j < |s| - |r| ==> s[j] == s[1..][j - 1];
      r
    else s
  }

  /** `s` without its trailing whitespace. */
  function DropTrailing(s: string): (r: string)
    ensures |r| <= |s| && r == s[..|r|]
    ensures forall j :: |r| <= j < |s| ==> IsPySpace(s[j])
    ensures r == [] || !IsPySpace(r[|r| - 1])
  {
    if s != [] && IsPySpace(s[|s| - 1]) then
      var r := DropTrailing(s[..|s| - 1]);
      assert s[..|s| - 1][..|r|] == s[..|r|];
      assert forall j :: |r| <= j < |s| - 1 ==> s[j] == s[..|s| - 1][j];
      r
    else s
  }

  /** `str.strip()`. */
  function PyStrip(s: string): string
  {
    DropTrailing(SkipSpaces(s))
  }

  /** The longest prefix of `s` without whitespace. */
  function TakeWord(s: string): (r: string)
    ensures |r| <= |s| && r == s[..|r|]
    ensures forall j :: 0 <= j < |r| ==> !IsPySpace(r[j])
    ensures |r| == |s| || IsPySpace(s[|r|])
  {
    if s == [] || IsPySpace(s[0]) then [] else [s[0]] + TakeWord(s[1..])
  }

  /** A non-empty run of non-whitespace. */
  predicate IsWord(w: string)
  {
    w != [] && forall j :: 0 <= j < |w| ==> !IsPySpace(w[j])
  }

  /** `str.split()` with no separator: the maximal runs of non-whitespace,
      in order. */
  function PySplit(s: string): seq<string>
    decreases |s|
  {
    var t := SkipSpaces(s);
    if t == [] then []
    else
      var w := TakeWord(t);
      assert w != [] by { assert !IsPySpace(t[0]); }
      [w] + PySplit(t[|w|..])
  }

  // ---------------------------------------------------------------------
  // GenerateQuizView: the topic key

  /** `request.data.get('topic', 'Geral').strip().lower().split()[0]`;
      `None` is the `IndexError` raised when nothing is left to split. */
  function TopicKey(raw: Option<string>): Option<string>
  {
    KeyOf(if raw.Some? then raw.value else "Geral")
  }

  /** `s.strip().lower().split()[0]`. */
  function KeyOf(s: string): Option<string>
  {
    var tokens := PySplit(Lower(PyStrip(s)));
    if tokens == [] then None else Some(tokens[0])
  }

  /** `w` is the first whitespace-separated word of `s`, found at index `i`. */
  ghost predicate FirstWord(s: string, i: int, w: string)
  {
    && 0 <= i && i + |w| <= |s| && w != []
    && w == s[i..i + |w|]
    && (forall j :: 0 <= j < i ==> IsPySpace(s[j]))
    && (forall j :: 0 <= j < |w| ==> !IsPySpace(w[j]))
    && (i + |w| == |s| || IsPySpace(s[i + |w|]))
  }

  lemma {:induction false} SkipSpacesAt(s: string, i: int, w: string)
    requires FirstWord(s, i, w)
    ensures SkipSpaces(s) == s[i..]
    decreases |s|
  {
    if i > 0 {
      assert IsPySpace(s[0]);
      assert FirstWord(s[1..], i - 1, w) by {
        assert s[1..][i - 1..i - 1 + |w|] == s[i..i + |w|];
      }
      SkipSpacesAt(s[1..], i - 1, w);
      assert s[1..][i - 1..] == s[i..];
    } else {
      assert s[0] == w[0];
    }
  }

  lemma {:induction false} TakeWordOf(t: string, w: string)
    requires w != [] && |w| <= |t| && w == t[..|w|]
    requires forall j :: 0 <= j < |w| ==> !IsPySpace(w[j])
    requires |w| == |t| || IsPySpace(t[|w|])
    ensures TakeWord(t) == w
    decreases |w|
  {
    assert !IsPySpace(t[0]) by { assert t[0] == w[0]; }
    if |w| > 1 {
      assert t[1..][..|w| - 1] == w[1..];
      assert |w| - 1 == |t[1..]| || IsPySpace(t[1..][|w| - 1]);
      TakeWordOf(t[1..], w[1..]);
      assert w == [w[0]] + w[1..];
    } else {
      assert |t[1..]| == 0 || IsPySpace(t[1..][0]);
    }
  }

  /** The first word of a string is the first element of its split. */
  lemma FirstWordSplit(s: string, i: int, w: string)
    requires FirstWord(s, i, w)
    ensures PySplit(s) != [] && PySplit(s)[0] == w
  {
    SkipSpacesAt(s, i, w);
    assert s[i..][..|w|] == w;
    assert |w| == |s[i..]| || IsPySpace(s[i..][|w|]);
    TakeWordOf(s[i..], w);
  }

  /** Stripping keeps the first word, at the front. */
  lemma FirstWordStrip(s: string, i: int, w: string)
    requires FirstWord(s, i, w)
    ensures FirstWord(PyStrip(s), 0, w)
  {
    SkipSpacesAt(s, i, w);
    var t := s[i..];
    var d := DropTrailing(t);
    assert t[|w| - 1] == w[|w| - 1] && !IsPySpace(t[|w| - 1]);
    assert |w| <= |d|;
    assert d[..|w|] == w;
    if |w| < |d| {
      assert d[|w|] == t[|w|] == s[i + |w|];
    }
  }

  /** Lower-casing keeps every word boundary and lower-cases the word. */
  lemma FirstWordLower(s: string, i: int, w: string)
    requires FirstWord(s, i, w)
    ensures FirstWord(Lower(s), i, Lower(w))
  {
    assert Lower(s)[i..i + |w|] == Lower(w);
  }

  /** A string of whitespace only strips to nothing. */
  lemma BlankStrip(s: string)
    requires forall j :: 0 <= j < |s| ==> IsPySpace(s[j])
    ensures PyStrip(s) == []
  {
  }

  /** Whenever `s` has a word, the key is the lower-cased first word of `s`. */
  lemma KeyOfFirstWord(s: string, i: int, w: string)
    requires FirstWord(s, i, w)
    ensures KeyOf(s) == Some(Lower(w))
  {
    FirstWordStrip(s, i, w);
    FirstWordLower(PyStrip(s), 0, w);
    FirstWordSplit(Lower(PyStrip(s)), 0, Lower(w));
  }

  /** A missing topic gives the key "geral". */
  lemma TopicKeyDefault()
    ensures TopicKey(None) == Some("geral")
  {
    GeralIsWord();
    KeyOfFirstWord("Geral", 0, "Geral");
    LowerGeral();
  }

  lemma GeralIsWord()
    ensures FirstWord("Geral", 0, "Geral")
  {
  }

  lemma LowerGeral()
    ensures Lower("Geral") == "geral"
  {
    var g := Lower("Geral");
    assert g[0] == 'g' && g[1] == 'e' && g[2] == 'r' && g[3] == 'a' && g[4] == 'l';
  }

  /** The first word of a string that is not all whitespace. */
  lemma HasFirstWord(s: string) returns (i: int, w: string)
    requires exists j :: 0 <= j < |s| && !IsPySpace(s[j])
    ensures FirstWord(s, i, w)
  {
    var t := SkipSpaces(s);
    i := |s| - |t|;
    w := TakeWord(t);
    assert t != [];
    assert w[0] == t[0];
    assert s[i..i + |w|] == t[..|w|];
    if i + |w| < |s| {
      assert s[i + |w|] == t[|w|];
    }
  }

  /** The topic key is the lower-cased first word of the topic; a blank or
      whitespace-only topic has no key and the request fails. */
  lemma TopicKeySpec(s: string)
    ensures TopicKey(Some(s)).None? <==> forall j :: 0 <= j < |s| ==> IsPySpace(s[j])
    ensures TopicKey(Some(s)).Some? ==> exists i, w :: FirstWord(s, i, w) && TopicKey(Some(s)).value == Lower(w)
  {
    if forall j :: 0 <= j < |s| ==> IsPySpace(s[j]) {
      BlankStrip(s);
      assert Lower(PyStrip(s)) == [];
    } else {
      var i, w := HasFirstWord(s);
      KeyOfFirstWord(s, i, w);
    }
  }

  /** A key has no whitespace and no upper-case letter. */
  lemma KeyShape(s: string)
    ensures KeyOf(s).Some? ==> IsWord(KeyOf(s).value)
    ensures KeyOf(s).Some? ==> forall j :: 0 <= j < |KeyOf(s).value| ==> !IsAsciiUpper(KeyOf(s).value[j])
  {
    TopicKeySpec(s);
    if KeyOf(s).Some? {
      var i, w :| FirstWord(s, i, w) && KeyOf(s).value == Lower(w);
      assert forall j :: 0 <= j < |w| ==> !IsPySpace(LowerChar(w[j]));
    }
  }

  // ---------------------------------------------------------------------
  // GenerateQuizView

  /** Python's `str()` of an integer. */
  function IntText(n: int): (r: string)
    ensures r != []
    decreases if n < 0 then 1 - n else n
  {
    if n < 0 then "-" + IntText(-n)
    else if n < 10 then [(n + '0' as int) as char]
    else IntText(n / 10) + [(n % 10 + '0' as int) as char]
  }

  /** The difficulty the generator is asked for: the mastery's level out of
      10 and the label of its tier. */
  function DifficultyPrompt(m: Mastery): string
  {
    "Nível " + IntText(m.level) + " de 10 (Rank " + TierLabel(m.tier) + ")"
  }

  /** The call made to the quiz generator: the topic as it was sent, and the
      difficulty. */
  datatype GeneratorCall = GeneratorCall(topic: string, difficulty: string)

  /** `player_status` of a generated quiz. */
  datatype PlayerStatus = PlayerStatus(topic: string, level: int, tier: string)

  /** The answers of `GenerateQuizView.post`: the server error raised for a
      blank topic, the generator's own error with status 500, or its quiz
      with the player's status attached. */
  datatype QuizResponse<Q> = NoTopicWord | GeneratorFailed | QuizReady(quiz: Q, status: PlayerStatus)

  /** The mastery row for `topic`, as `get_or_create` gives it. */
  function RowOf(rows: map<string, Mastery>, topic: string): (m: Mastery)
    ensures topic !in rows ==> m == Default
    ensures topic in rows ==> m == rows[topic]
  {
    if topic in rows then rows[topic] else Default
  }

  /** The call `GenerateQuizView.post` makes to the generator, if it gets
      that far. */
  function QuizCall(raw: Option<string>, rows: map<string, Mastery>): (r: Option<GeneratorCall>)
    ensures r.Some? <==> TopicKey(raw).Some?
    ensures r.Some? ==> r.value.topic == (if raw.Some? then raw.value else "Geral")
  {
    match TopicKey(raw)
    case None => None
    case Some(key) =>
      Some(GeneratorCall(if raw.Some? then raw.value else "Geral", DifficultyPrompt(RowOf(rows, key))))
  }

  /** `GenerateQuizView.post` once the topic has given `key` (`None` for
      the `IndexError`), given the generator's `reply`: the response and the
      mastery rows afterwards. The row for the key is created, at the
      defaults, before the generator is called. */
  function QuizOutcome<Q>(key: Option<string>, rows: map<string, Mastery>, reply: Reply<Q>)
    : (r: (QuizResponse<Q>, map<string, Mastery>))
    ensures key.None? ==> r == (NoTopicWord, rows)
    ensures key.Some? ==>
      && r.1 == rows[key.value := RowOf(rows, key.value)]
      && (reply.Failed? ==> r.0 == GeneratorFailed)
      && (reply.Ok? ==> r.0 == QuizReady(reply.value, PlayerStatus(key.value, RowOf(rows, key.value).level, RowOf(rows, key.value).tier)))
  {
    match key
    case None => (NoTopicWord, rows)
    case Some(key) =>
      var mastery := RowOf(rows, key);
      var rows' := rows[key := mastery];
      match reply
      case Failed => (GeneratorFailed, rows')
      case Ok(quiz) => (QuizReady(quiz, PlayerStatus(key, mastery.level, mastery.tier)), rows')
  }

  /** `GenerateQuizView.post` on the requested topic `raw`. */
  function GenerateQuizOutcome<Q>(raw: Option<string>, rows: map<string, Mastery>, reply: Reply<Q>)
    : (QuizResponse<Q>, map<string, Mastery>)
  {
    QuizOutcome(TopicKey(raw), rows, reply)
  }

  /** Every row on the ladder stays on it. */
  ghost predicate AllOnLadder(rows: map<string, Mastery>)
  {
    forall t :: t in rows ==> OnLadder(rows[t])
  }

  /** Adding the row `get_or_create` gives for `key` keeps every row on
      the ladder and changes no existing row. */
  lemma CreateRowKeepsLadder(rows: map<string, Mastery>, key: string)
    requires AllOnLadder(rows)
    ensures var rows' := rows[key := RowOf(rows, key)];
      AllOnLadder(rows') && forall t :: t in rows ==> t in rows' && rows'[t] == rows[t]
  {
    assert OnLadder(Default) by { assert Default.tier == Tiers[0]; }
  }

  /** Starting a quiz never changes an existing row and only adds one on
      the ladder; the player status it reports is a row on the ladder. */
  lemma GenerateQuizKeepsLadder<Q>(key: Option<string>, rows: map<string, Mastery>, reply: Reply<Q>)
    requires AllOnLadder(rows)
    ensures var (response, rows') := QuizOutcome(key, rows, reply);
      && AllOnLadder(rows')
      && (forall t :: t in rows ==> t in rows' && rows'[t] == rows[t])
      && (response.QuizReady? ==> OnLadder(Mastery(response.status.level, response.status.tier)))
  {
    if key.Some? {
      CreateRowKeepsLadder(rows, key.value);
      assert OnLadder(RowOf(rows, key.value));
    }
  }

  // ---------------------------------------------------------------------
  // SubmitScoreView

  /** A payload `GameResultSerializer` accepts (topic, XP gained, passed),
      or one it rejects. */
  datatype Payload = Valid(topic: string, xpGained: int, passed: bool) | Invalid

  /** `mastery_update`: empty, or the new level and tier with the event. */
  datatype MasteryUpdate = NoUpdate | Update(newLevel: int, newTier: string, event: string)

  /** The answers of `SubmitScoreView.post`: status 400, the `ValueError`
      raised by `level_up` for a row off the tier list (status 500), or the
      new global XP with the mastery update. */
  datatype SubmitResponse = BadRequest | LevelUpFailed | Scored(globalXp: int, masteryUpdate: MasteryUpdate)

  /** `SubmitScoreView.post` on the profile `p` and the mastery rows: the
      response, the profile and the rows afterwards. */
  function SubmitOutcome(p: Player, rows: map<string, Mastery>, payload: Payload)
    : (r: (SubmitResponse, Player, map<string, Mastery>))
    ensures payload.Invalid? ==> r == (BadRequest, p, rows)
    ensures payload.Valid? ==> r.1 == AddedXp(p, payload.xpGained)
    ensures payload.Valid? && !payload.passed ==> r == (Scored(r.1.xp, NoUpdate), r.1, rows)
  {
    match payload
    case Invalid => (BadRequest, p, rows)
    case Valid(topic, xp, passed) =>
      var p' := AddedXp(p, xp);
      if !passed then (Scored(p'.xp, NoUpdate), p', rows)
      else
        var mastery := RowOf(rows, topic);
        match LevelUpOutcome(mastery)
        case (ValueError, _) => (LevelUpFailed, p', rows[topic := mastery])
        case (Returned(upgraded, reason), after) =>
          (Scored(p'.xp, Update(after.level, after.tier, reason)), p', rows[topic := after])
  }

  /** The XP is added whether or not the quiz was passed: the profile after
      a submission does not depend on `passed`. */
  lemma SubmitXpAlways(p: Player, rows: map<string, Mastery>, topic: string, xp: int)
    ensures SubmitOutcome(p, rows, Valid(topic, xp, true)).1 == SubmitOutcome(p, rows, Valid(topic, xp, false)).1
    ensures SubmitOutcome(p, rows, Valid(topic, xp, true)).1.xp == p.xp + xp
  {
  }

  /** A passed quiz climbs the topic's row (created at the defaults if it
      was missing) by one `level_up` and reports the new level, tier and
      event; every other row is unchanged. */
  lemma SubmitPassedClimbs(p: Player, rows: map<string, Mastery>, topic: string, xp: int)
    requires AllOnLadder(rows)
    ensures var (response, p', rows') := SubmitOutcome(p, rows, Valid(topic, xp, true));
      var (result, after) := LevelUpOutcome(RowOf(rows, topic));
      && result.Returned?
      && rows' == rows[topic := after]
      && response == Scored(p.xp + xp, Update(after.level, after.tier, result.reason))
      && AllOnLadder(rows')
  {
    assert OnLadder(Default);
    LevelUpClimbs(RowOf(rows, topic));
  }

  /** The score endpoint, on the profile object and the table of masteries. */
  class MasteryTable {
    var rows: map<string, Mastery>

    constructor ()
      ensures rows == map[]
    {
      rows := map[];
    }
  }

  /** `SubmitScoreView.post`: the XP goes to the profile first, then the
      topic's row climbs when the quiz was passed. */
  method SubmitScore(profile: PlayerProfile, table: MasteryTable, payload: Payload) returns (response: SubmitResponse)
    modifies profile, table
    ensures (response, profile.State(), table.rows) == SubmitOutcome(old(profile.State()), old(table.rows), payload)
  {
    if payload.Invalid? {
      return BadRequest;
    }
    var topic, xp, passed := payload.topic, payload.xpGained, payload.passed;
    profile.AddXp(xp);
    var update := NoUpdate;
    if passed {
      var mastery := if topic in table.rows then table.rows[topic] else Default;
      var (result, after) := LevelUpOutcome(mastery);
      if result.ValueError? {
        table.rows := table.rows[topic := mastery];
        return LevelUpFailed;
      }
      table.rows := table.rows[topic := after];
      update := Update(after.level, after.tier, result.reason);
    }
    response := Scored(profile.xp, update);
  }

  /** `GenerateQuizView.post`: creates the row for the key, then answers
      with the generator's `reply` to `QuizCall(raw, old(table.rows))`. */
  method GenerateQuiz<Q>(table: MasteryTable, raw: Option<string>, reply: Reply<Q>) returns (response: QuizResponse<Q>)
    modifies table
    ensures (response, table.rows) == GenerateQuizOutcome(raw, old(table.rows), reply)
  {
    var key := TopicKey(raw);
    if key.None? {
      return NoTopicWord;
    }
    var mastery := if key.value in table.rows then table.rows[key.value] else Default;
    table.rows := table.rows[key.value := mastery];
    if reply.Failed? {
      return GeneratorFailed;
    }
    response := QuizReady(reply.value, PlayerStatus(key.value, mastery.level, mastery.tier));
  }
}
