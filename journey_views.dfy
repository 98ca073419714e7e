/** The Journey endpoints (backend/apps/journey/views.py) over the progress
    record of backend/apps/journey/models.py: starting a level builds the
    quiz request for it, completing a level records a first clear, advances
    the progress and grants XP. */
module JourneyViews {
  import opened Common
  import opened Curriculum
  import opened ArenaModels

  // ---------------------------------------------------------------------
  // Progress

  /** A player's journey progress: the current world and level indices and
      the ids cleared so far, in clearing order. */
  datatype Progress = Progress(worldIndex: int, levelIndex: int, completed: seq<string>)

  /** A new journey: world 0, level 0, nothing cleared. */
  const Start := Progress(0, 0, [])

  class UserJourney {
    var currentWorldIndex: int
    var currentLevelIndex: int
    var completedLevels: seq<string>

    function State(): Progress
      reads this
    {
      Progress(currentWorldIndex, currentLevelIndex, completedLevels)
    }

    constructor ()
      ensures State() == Start
    {
      currentWorldIndex, currentLevelIndex, completedLevels := 0, 0, [];
    }
  }

  // ---------------------------------------------------------------------
  // CompleteLevelView

  /** The answers of `CompleteLevelView.post`. */
  datatype CompleteResponse =
    | NotCompleted                                // success False: the level was not passed
    | InvalidLevel                                // status 400
    | FirstClear(xpGained: int, newProgress: int) // success True, first_clear True
    | AlreadyCleared                              // success True, first_clear False, xp_gained 0

  /** The XP a first clear is worth. */
  function XpReward(isBoss: bool): int
  {
    if isBoss then 500 else 150
  }

  /** The progress after the first clear of a level: the id is appended; a
      boss moves to the next world's first level, any other level moves one
      level on, whichever level it was. */
  function Advance(p: Progress, levelId: string, isBoss: bool): Progress
  {
    if isBoss then Progress(p.worldIndex + 1, 0, p.completed + [levelId])
    else Progress(p.worldIndex, p.levelIndex + 1, p.completed + [levelId])
  }

  /** `CompleteLevelView.post` on the journey `p`, once `get_level_data`
      has answered `data` for `levelId`: the response and the progress
      afterwards. */
  function Complete(p: Progress, levelId: string, data: LevelData, passed: bool): (r: (CompleteResponse, Progress))
    ensures !passed ==> r == (NotCompleted, p)
    ensures passed && data.NotFound? ==> r == (InvalidLevel, p)
    ensures passed && levelId in p.completed ==> r.1 == p && (r.0 == InvalidLevel || r.0 == AlreadyCleared)
    ensures r.0.FirstClear? <==> passed && !data.NotFound? && levelId !in p.completed
    ensures r.0.FirstClear? ==> r.1.completed == p.completed + [levelId] && r.0.newProgress == r.1.levelIndex
  {
    if !passed then (NotCompleted, p)
    else if data.NotFound? then (InvalidLevel, p)
    else if levelId !in p.completed then
      var isBoss := data.BossFight?;
      var next := Advance(p, levelId, isBoss);
      (FirstClear(XpReward(isBoss), next.levelIndex), next)
    else (AlreadyCleared, p)
  }

  /** `CompleteLevelView.post` on the journey `p`. */
  function CompleteLevelOutcome(p: Progress, levelId: string, passed: bool): (CompleteResponse, Progress)
  {
    Complete(p, levelId, GetLevelData(levelId), passed)
  }

  /** The XP a response reports as gained. */
  function XpGained(response: CompleteResponse): int
  {
    if response.FirstClear? then response.xpGained else 0
  }

  /** A first clear of a boss opens the next world at its first level and
      is worth 500 XP; a first clear of a regular level moves one level on
      in the same world and is worth 150 XP; a repeat clear of a known
      level gains nothing and changes nothing. */
  lemma CompleteLevelSpec(p: Progress, levelId: string, data: LevelData)
    ensures var (response, next) := Complete(p, levelId, data, true);
      && (data.BossFight? && levelId !in p.completed ==>
            response == FirstClear(500, 0) && next == Progress(p.worldIndex + 1, 0, p.completed + [levelId]))
      && (data.Regular? && levelId !in p.completed ==>
            response == FirstClear(150, p.levelIndex + 1)
            && next == Progress(p.worldIndex, p.levelIndex + 1, p.completed + [levelId]))
      && (!data.NotFound? && levelId in p.completed ==> response == AlreadyCleared && XpGained(response) == 0)
  {
  }

  /** `completed_levels` never gains an id twice: a level is appended only
      on its first clear, and only once the lookup found it. */
  lemma CompleteLevelKeepsDistinct(p: Progress, levelId: string, data: LevelData, passed: bool)
    requires Distinct(p.completed)
    ensures var next := Complete(p, levelId, data, passed).1;
      && Distinct(next.completed)
      && forall id :: id in next.completed ==> id in p.completed || (id == levelId && passed && !data.NotFound?)
  {
    var (response, next) := Complete(p, levelId, data, passed);
    if response.FirstClear? {
      forall i, j | 0 <= i < j < |next.completed| ensures next.completed[i] != next.completed[j] {
        if j == |p.completed| {
          assert next.completed[i] == p.completed[i];
        }
      }
    }
  }

  /** The body of `CompleteLevelView.post` once `get_level_data` has
      answered `data`: updates the journey in place and, on a first clear
      only, adds the reward to the player's profile. */
  method ApplyCompletion(journey: UserJourney, profile: PlayerProfile, levelId: string, data: LevelData, passed: bool)
    returns (response: CompleteResponse)
    modifies journey, profile
    ensures (response, journey.State()) == Complete(old(journey.State()), levelId, data, passed)
    ensures response.FirstClear? ==>
      profile.xp == old(profile.xp) + response.xpGained && profile.quizzesPlayed == old(profile.quizzesPlayed) + 1
      && profile.level == LevelForXp(profile.xp)
    ensures !response.FirstClear? ==> unchanged(profile)
  {
    ghost var before := journey.State();
    if !passed {
      return NotCompleted;
    }
    if data.NotFound? {
      return InvalidLevel;
    }
    var isBoss := data.BossFight?;
    var firstClear := levelId !in journey.completedLevels;
    if firstClear {
      journey.completedLevels := journey.completedLevels + [levelId];
      if isBoss {
        journey.currentWorldIndex := journey.currentWorldIndex + 1;
        journey.currentLevelIndex := 0;
      } else {
        journey.currentLevelIndex := journey.currentLevelIndex + 1;
      }
      var xpReward := if isBoss then 500 else 150;
      profile.AddXp(xpReward);
      response := FirstClear(xpReward, journey.currentLevelIndex);
      assert journey.State() == Advance(before, levelId, isBoss);
    } else {
      response := AlreadyCleared;
    }
  }

  /** `CompleteLevelView.post`: looks the level up, then applies it. */
  method CompleteLevel(journey: UserJourney, profile: PlayerProfile, levelId: string, passed: bool)
    returns (response: CompleteResponse)
    modifies journey, profile
    ensures (response, journey.State()) == CompleteLevelOutcome(old(journey.State()), levelId, passed)
    ensures response.FirstClear? ==>
      profile.xp == old(profile.xp) + response.xpGained && profile.quizzesPlayed == old(profile.quizzesPlayed) + 1
    ensures !response.FirstClear? ==> unchanged(profile)
  {
    var data := GetLevelData(levelId);
    response := ApplyCompletion(journey, profile, levelId, data, passed);
  }

  // ---------------------------------------------------------------------
  // StartLevelView

  /** The request `StartLevelView` makes to the quiz generator. */
  datatype QuizRequest = QuizRequest(topic: string, difficulty: string)

  /** `journey_meta`, attached to whatever the generator answers. */
  datatype JourneyMeta = JourneyMeta(levelId: string, isBoss: bool, worldId: string)

  /** The answers of `StartLevelView.post`: 404, or the quiz generated for
      the request with the journey metadata attached. */
  datatype StartResponse = LevelNotFound | Quiz(request: QuizRequest, meta: JourneyMeta)

  function BossPrompt(roleTitle: string, topic: string): string
  {
    "Você é o BOSS FINAL do nível " + roleTitle + ". "
      + "O desafio é sobre: " + topic + ". "
      + "Crie perguntas difíceis baseadas em cenários de falha real."
  }

  function LessonPrompt(roleTitle: string, topic: string): string
  {
    "Treinamento para se tornar " + roleTitle + ". " + "Tópico da aula: " + topic + "."
  }

  /** `StartLevelView.post` once `get_level_data` has answered `data` for
      `levelId`: the prompt names the world's role in upper case and the
      level's topic; a boss is asked for hard questions. */
  function StartWith(levelId: string, data: LevelData): StartResponse
  {
    match data
    case NotFound => LevelNotFound
    case Regular(level, world) =>
      Quiz(QuizRequest(LessonPrompt(Upper(world.role), level.topic), "medium"), JourneyMeta(levelId, false, world.id))
    case BossFight(boss, world) =>
      Quiz(QuizRequest(BossPrompt(Upper(world.role), boss.topic), "hard"), JourneyMeta(levelId, true, world.id))
  }

  /** `StartLevelView.post`. */
  function StartLevel(levelId: string): StartResponse
  {
    StartWith(levelId, GetLevelData(levelId))
  }

  /** An unknown id is answered 404; otherwise the difficulty is "hard"
      exactly for a boss, the prompt names the topic of the level or boss
      found, and the metadata echoes the id, whether it is a boss, and the
      id of the world it belongs to. */
  lemma StartLevelSpec(levelId: string, data: LevelData)
    ensures StartWith(levelId, data).LevelNotFound? <==> data.NotFound?
    ensures StartWith(levelId, data).Quiz? ==>
      && (StartWith(levelId, data).request.difficulty == "hard" <==> data.BossFight?)
      && StartWith(levelId, data).meta == JourneyMeta(levelId, data.BossFight?, data.world.id)
    ensures data.Regular? ==> StartWith(levelId, data).request.topic == LessonPrompt(Upper(data.world.role), data.level.topic)
    ensures data.BossFight? ==> StartWith(levelId, data).request.topic == BossPrompt(Upper(data.world.role), data.boss.topic)
  {
  }

  /** An unknown id is refused by both endpoints and changes nothing. */
  lemma UnknownLevelRefused(p: Progress, levelId: string)
    requires levelId !in AllIds(SagaData)
    ensures StartLevel(levelId) == LevelNotFound
    ensures CompleteLevelOutcome(p, levelId, true) == (InvalidLevel, p)
  {
    GetLevelDataSpec(levelId);
    UnknownRefused(p, levelId, GetLevelData(levelId));
  }

  lemma UnknownRefused(p: Progress, levelId: string, data: LevelData)
    requires data.NotFound?
    ensures StartWith(levelId, data) == LevelNotFound
    ensures Complete(p, levelId, data, true) == (InvalidLevel, p)
  {
  }
}
