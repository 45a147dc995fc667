/**
 * Adventure Creator's "Scene: Check" action
 * (Assets/AdventureCreator/Scripts/Actions/ActionSceneCheck.cs).
 *
 * The action asks whether the current or the previous scene is a given scene,
 * chosen by build index or by name, under an "equal to" or "not equal to"
 * condition. When players can be switched it may look at one player's saved
 * scenes instead of the global ones. The engine's lookups (the settings
 * manager, the scene changer's indices, the save system's player records, the
 * index-to-name table and token expansion) are inputs gathered in `Engine`.
 */
module SceneCheck {
  import opened Wrappers

  datatype IntCondition = EqualTo | NotEqualTo

  datatype SceneToCheck = Current | Previous

  /**
   * The values of Adventure Creator's ChooseSceneBy (Number = 0, Name = 1). A
   * C# enum variable can hold any integer, and the action casts an integer
   * into one, so the other codes are kept as Undefined(code).
   */
  datatype SceneChoice = Number | Name | Undefined(code: int)

  /** Exactly the values a ChooseSceneBy variable can hold: codes 0 and 1 are Number and Name. */
  type ChooseSceneBy = c: SceneChoice | !c.Undefined? || (c.code != 0 && c.code != 1)
    witness SceneChoice.Number

  /** The protected choice stored as an integer when players can be switched. */
  datatype ChooseSceneByPlayerSwitching = Number | Name | CurrentMain

  function PlayerSwitchingCode(c: ChooseSceneByPlayerSwitching): int
  {
    match c
    case Number => 0
    case Name => 1
    case CurrentMain => 2
  }

  /** The C# cast `(ChooseSceneBy) code`. */
  function ChooseSceneByFromCode(code: int): (r: ChooseSceneBy)
    ensures r == SceneChoice.Number <==> code == 0
    ensures r == SceneChoice.Name <==> code == 1
    ensures r.Undefined? <==> code != 0 && code != 1
    ensures r.Undefined? ==> r.code == code
  {
    if code == 0 then SceneChoice.Number
    else if code == 1 then SceneChoice.Name
    else Undefined(code)
  }

  datatype PlayerSwitching = Allow | DoNotAllow

  /** A player's saved scene indices. */
  datatype PlayerData = PlayerData(currentScene: int, previousScene: int)

  /** What the action reads from the rest of the engine. */
  datatype Engine = Engine(
    settingsManager: Option<PlayerSwitching>,   // None when there is no settings manager
    currentSceneIndex: int,
    previousSceneIndex: int,
    playerData: map<int, PlayerData>,            // the save system's records by player ID
    indexToName: int -> string,
    convertTokens: string -> string)

  /** The action's fields that CheckCondition reads. */
  datatype CheckFields = CheckFields(
    chooseSceneBy: ChooseSceneBy,
    sceneToCheck: SceneToCheck,
    chooseSceneByPlayerSwitching: int,
    sceneNumber: int,
    sceneName: string,
    runtimePlayerID: int,
    intCondition: IntCondition)

  /** The answer of CheckCondition together with the two fields it may overwrite. */
  datatype Verdict = Verdict(result: bool, runtimePlayerID: int, chooseSceneBy: ChooseSceneBy)

  predicate SwitchingOff(e: Engine)
  {
    e.settingsManager.None? || e.settingsManager.value == DoNotAllow
  }

  /** The player whose saved scenes are consulted, or -1 for the global scenes. */
  function PlayerInEffect(f: CheckFields, e: Engine): int
  {
    if SwitchingOff(e) then -1 else f.runtimePlayerID
  }

  /** True when a player's saved record is consulted. */
  predicate UsesPlayerData(f: CheckFields, e: Engine)
  {
    PlayerInEffect(f, e) >= 0 && PlayerInEffect(f, e) in e.playerData
  }

  /** The scene index compared against: a player's saved one, 0 for a missing player record, else the global one. */
  function ActualScene(f: CheckFields, e: Engine): int
  {
    var id := PlayerInEffect(f, e);
    if id >= 0 then
      if id in e.playerData then
        if f.sceneToCheck == Previous then e.playerData[id].previousScene else e.playerData[id].currentScene
      else 0
    else if f.sceneToCheck == Previous then e.previousSceneIndex
    else e.currentSceneIndex
  }

  /** The comparison itself, once the scene and the way of choosing it are known. */
  function Compare(f: CheckFields, e: Engine, actual: int, choice: ChooseSceneBy): bool
  {
    if actual == -1 && f.sceneToCheck == Previous then false
    else
      var actualName := e.indexToName(actual);
      match f.intCondition
      case EqualTo =>
        (choice == SceneChoice.Name && actualName == e.convertTokens(f.sceneName)) ||
        (choice == SceneChoice.Number && actual == f.sceneNumber)
      case NotEqualTo =>
        (choice == SceneChoice.Name && actualName != e.convertTokens(f.sceneName)) ||
        (choice == SceneChoice.Number && actual != f.sceneNumber)
  }

  /**
   * What CheckCondition answers and leaves in runtimePlayerID and
   * chooseSceneBy. The runtime player becomes the one in effect; chooseSceneBy
   * is overwritten only when a player's record is read outside CurrentMain; and
   * a true answer needs CurrentMain or a scene chosen by number or name.
   */
  function Evaluate(f: CheckFields, e: Engine): (r: Verdict)
    ensures r.runtimePlayerID == PlayerInEffect(f, e)
    ensures r.chooseSceneBy ==
      if UsesPlayerData(f, e) && f.chooseSceneByPlayerSwitching != PlayerSwitchingCode(CurrentMain)
      then ChooseSceneByFromCode(f.chooseSceneByPlayerSwitching) else f.chooseSceneBy
    ensures r.result && !(UsesPlayerData(f, e) && f.chooseSceneByPlayerSwitching == PlayerSwitchingCode(CurrentMain)) ==>
      !ChoiceInEffect(f, e).Undefined? && !(f.sceneToCheck == Previous && ActualScene(f, e) == -1)
  {
    var id := PlayerInEffect(f, e);
    var actual := ActualScene(f, e);
    if UsesPlayerData(f, e) then
      if f.chooseSceneByPlayerSwitching == PlayerSwitchingCode(CurrentMain) then
        Verdict(actual == e.currentSceneIndex, id, f.chooseSceneBy)
      else
        var choice := ChooseSceneByFromCode(f.chooseSceneByPlayerSwitching);
        Verdict(Compare(f, e, actual, choice), id, choice)
    else
      Verdict(Compare(f, e, actual, f.chooseSceneBy), id, f.chooseSceneBy)
  }

  /** The way of choosing the scene that the comparison uses. */
  function ChoiceInEffect(f: CheckFields, e: Engine): ChooseSceneBy
  {
    if UsesPlayerData(f, e) then ChooseSceneByFromCode(f.chooseSceneByPlayerSwitching) else f.chooseSceneBy
  }

  // ---------------------------------------------------------------------------
  // Properties of the check

  /**
   * Without a settings manager, or when player switching is not allowed, the
   * runtime player becomes -1, the global current or previous scene index is
   * compared and the way of choosing is left as it was.
   */
  lemma NoSwitchingUsesGlobalScene(f: CheckFields, e: Engine)
    requires SwitchingOff(e)
    ensures Evaluate(f, e).runtimePlayerID == -1
    ensures Evaluate(f, e).chooseSceneBy == f.chooseSceneBy
    ensures ActualScene(f, e) == if f.sceneToCheck == Previous then e.previousSceneIndex else e.currentSceneIndex
    ensures Evaluate(f, e).result == Compare(f, e, ActualScene(f, e), f.chooseSceneBy)
  {
  }

  /**
   * When the previous scene is checked and its index is -1 (no previous
   * scene), the answer is false whatever the condition and target, unless a
   * player's record is read under CurrentMain.
   */
  lemma PreviousSceneMissingIsFalse(f: CheckFields, e: Engine)
    requires f.sceneToCheck == Previous && ActualScene(f, e) == -1
    requires !(UsesPlayerData(f, e) && f.chooseSceneByPlayerSwitching == PlayerSwitchingCode(CurrentMain))
    ensures !Evaluate(f, e).result
  {
  }

  /**
   * Choosing by number: "equal to" answers whether the scene index is the
   * configured number and "not equal to" answers the opposite.
   */
  lemma ByNumberConditions(f: CheckFields, e: Engine)
    requires ChoiceInEffect(f, e) == SceneChoice.Number
    requires !(UsesPlayerData(f, e) && f.chooseSceneByPlayerSwitching == PlayerSwitchingCode(CurrentMain))
    requires !(f.sceneToCheck == Previous && ActualScene(f, e) == -1)
    ensures Evaluate(f.(intCondition := EqualTo), e).result == (ActualScene(f, e) == f.sceneNumber)
    ensures Evaluate(f.(intCondition := NotEqualTo), e).result == (ActualScene(f, e) != f.sceneNumber)
  {
  }

  /**
   * Choosing by name: the scene's name is compared with the configured name
   * after token expansion; "not equal to" answers the opposite of "equal to".
   */
  lemma ByNameConditions(f: CheckFields, e: Engine)
    requires ChoiceInEffect(f, e) == SceneChoice.Name
    requires !(UsesPlayerData(f, e) && f.chooseSceneByPlayerSwitching == PlayerSwitchingCode(CurrentMain))
    requires !(f.sceneToCheck == Previous && ActualScene(f, e) == -1)
    ensures Evaluate(f.(intCondition := EqualTo), e).result ==
      (e.indexToName(ActualScene(f, e)) == e.convertTokens(f.sceneName))
    ensures Evaluate(f.(intCondition := NotEqualTo), e).result ==
      (e.indexToName(ActualScene(f, e)) != e.convertTokens(f.sceneName))
  {
  }

  /**
   * With a player's record and the CurrentMain choice, the answer is whether
   * that player's saved scene is the current scene, whatever the condition,
   * even when the saved previous scene is -1; chooseSceneBy is not touched.
   */
  lemma CurrentMainComparesWithCurrentScene(f: CheckFields, e: Engine)
    requires UsesPlayerData(f, e) && f.chooseSceneByPlayerSwitching == PlayerSwitchingCode(CurrentMain)
    ensures Evaluate(f, e).result == (ActualScene(f, e) == e.currentSceneIndex)
    ensures Evaluate(f.(intCondition := EqualTo), e) == Evaluate(f.(intCondition := NotEqualTo), e)
    ensures Evaluate(f, e).chooseSceneBy == f.chooseSceneBy
  {
  }

  /**
   * With a player's record and any other choice, chooseSceneBy is overwritten
   * by the cast of the stored integer; a code that is neither Number nor Name
   * (the field's initial -1, say) makes the answer false.
   */
  lemma PlayerChoiceOverwritesChooseSceneBy(f: CheckFields, e: Engine)
    requires UsesPlayerData(f, e) && f.chooseSceneByPlayerSwitching != PlayerSwitchingCode(CurrentMain)
    ensures Evaluate(f, e).chooseSceneBy == ChooseSceneByFromCode(f.chooseSceneByPlayerSwitching)
    ensures f.chooseSceneByPlayerSwitching != 0 && f.chooseSceneByPlayerSwitching != 1 ==> !Evaluate(f, e).result
  {
  }

  /**
   * When a player is in effect but the save system has no record of them,
   * scene index 0 is compared and evaluation goes on as for the global scenes.
   */
  lemma MissingPlayerDataUsesSceneZero(f: CheckFields, e: Engine)
    requires PlayerInEffect(f, e) >= 0 && PlayerInEffect(f, e) !in e.playerData
    ensures ActualScene(f, e) == 0
    ensures Evaluate(f, e) == Verdict(Compare(f, e, 0, f.chooseSceneBy), f.runtimePlayerID, f.chooseSceneBy)
  {
  }

  /**
   * "Equal to" and "not equal to" never both answer true for the same
   * configuration, except under CurrentMain, where the condition is ignored.
   */
  lemma ConditionsAreExclusive(f: CheckFields, e: Engine)
    ensures !(Evaluate(f.(intCondition := EqualTo), e).result && Evaluate(f.(intCondition := NotEqualTo), e).result)
      || (UsesPlayerData(f, e) && f.chooseSceneByPlayerSwitching == PlayerSwitchingCode(CurrentMain))
  {
  }

  // ---------------------------------------------------------------------------
  // The action

  class ActionSceneCheck {
    var chooseSceneBy: ChooseSceneBy
    var sceneToCheck: SceneToCheck
    var chooseSceneByPlayerSwitching: int
    var sceneNumberParameterID: int
    var sceneNumber: int
    var sceneNameParameterID: int
    var sceneName: string
    var playerID: int
    var playerParameterID: int
    var runtimePlayerID: int
    var intCondition: IntCondition

    function Fields(): CheckFields
      reads this
    {
      CheckFields(chooseSceneBy, sceneToCheck, chooseSceneByPlayerSwitching, sceneNumber, sceneName,
                  runtimePlayerID, intCondition)
    }

    /** A new action with the fields' declared initial values. */
    constructor ()
      ensures chooseSceneBy == SceneChoice.Number && sceneToCheck == Current
      ensures chooseSceneByPlayerSwitching == -1
      ensures sceneNumberParameterID == -1 && sceneNumber == 0
      ensures sceneNameParameterID == -1 && sceneName == ""
      ensures playerID == -1 && playerParameterID == -1
      ensures runtimePlayerID == 0 && intCondition == EqualTo
    {
      chooseSceneBy := SceneChoice.Number;
      sceneToCheck := Current;
      chooseSceneByPlayerSwitching := -1;
      sceneNumberParameterID := -1;
      sceneNumber := 0;
      sceneNameParameterID := -1;
      sceneName := "";
      playerID := -1;
      playerParameterID := -1;
      runtimePlayerID := 0;
      intCondition := EqualTo;
    }

    /** A check for the scene with the given name. */
    static method CreateNewByName(sceneName: string, sceneToCheck: SceneToCheck) returns (newAction: ActionSceneCheck)
      ensures fresh(newAction)
      ensures newAction.sceneToCheck == sceneToCheck && newAction.chooseSceneBy == SceneChoice.Name
      ensures newAction.sceneName == sceneName && newAction.sceneNumber == 0
      ensures newAction.intCondition == EqualTo && newAction.chooseSceneByPlayerSwitching == -1
      ensures newAction.sceneNumberParameterID == -1 && newAction.sceneNameParameterID == -1
      ensures newAction.playerID == -1 && newAction.playerParameterID == -1 && newAction.runtimePlayerID == 0
    {
      newAction := new ActionSceneCheck();
      newAction.sceneToCheck := sceneToCheck;
      newAction.chooseSceneBy := SceneChoice.Name;
      newAction.sceneName := sceneName;
    }

    /** A check for the scene with the given build index. */
    static method CreateNewByNumber(sceneNumber: int, sceneToCheck: SceneToCheck) returns (newAction: ActionSceneCheck)
      ensures fresh(newAction)
      ensures newAction.sceneToCheck == sceneToCheck && newAction.chooseSceneBy == SceneChoice.Number
      ensures newAction.sceneNumber == sceneNumber && newAction.sceneName == ""
      ensures newAction.intCondition == EqualTo && newAction.chooseSceneByPlayerSwitching == -1
      ensures newAction.sceneNumberParameterID == -1 && newAction.sceneNameParameterID == -1
      ensures newAction.playerID == -1 && newAction.playerParameterID == -1 && newAction.runtimePlayerID == 0
    {
      newAction := new ActionSceneCheck();
      newAction.sceneToCheck := sceneToCheck;
      newAction.chooseSceneBy := SceneChoice.Number;
      newAction.sceneNumber := sceneNumber;
    }

    /**
     * Reads the parameter-driven fields. `assignInteger(id, fallback)` and
     * `assignString(id, fallback)` stand for the action's parameter lookups:
     * the value of parameter `id`, or the fallback.
     */
    method AssignValues(assignInteger: (int, int) -> int, assignString: (int, string) -> string)
      modifies this
      ensures sceneNumber == assignInteger(sceneNumberParameterID, old(sceneNumber))
      ensures sceneName == assignString(sceneNameParameterID, old(sceneName))
      ensures runtimePlayerID == assignInteger(playerParameterID, playerID)
      ensures chooseSceneBy == old(chooseSceneBy) && sceneToCheck == old(sceneToCheck)
      ensures chooseSceneByPlayerSwitching == old(chooseSceneByPlayerSwitching)
      ensures intCondition == old(intCondition)
      ensures sceneNumberParameterID == old(sceneNumberParameterID)
      ensures sceneNameParameterID == old(sceneNameParameterID)
      ensures playerID == old(playerID) && playerParameterID == old(playerParameterID)
    {
      sceneNumber := assignInteger(sceneNumberParameterID, sceneNumber);
      sceneName := assignString(sceneNameParameterID, sceneName);
      runtimePlayerID := assignInteger(playerParameterID, playerID);
    }

    /**
     * Answers the check against the engine's state; it may overwrite
     * runtimePlayerID and chooseSceneBy and changes no other field.
     */
    method CheckCondition(e: Engine) returns (result: bool)
      modifies this
      ensures result == Evaluate(old(Fields()), e).result
      ensures runtimePlayerID == Evaluate(old(Fields()), e).runtimePlayerID
      ensures chooseSceneBy == Evaluate(old(Fields()), e).chooseSceneBy
      ensures sceneToCheck == old(sceneToCheck) && intCondition == old(intCondition)
      ensures sceneNumber == old(sceneNumber) && sceneName == old(sceneName)
      ensures chooseSceneByPlayerSwitching == old(chooseSceneByPlayerSwitching)
      ensures sceneNumberParameterID == old(sceneNumberParameterID)
      ensures sceneNameParameterID == old(sceneNameParameterID)
      ensures playerID == old(playerID) && playerParameterID == old(playerParameterID)
    {
      var actualSceneNumber := 0;

      if e.settingsManager.None? || e.settingsManager.value == DoNotAllow {
        runtimePlayerID := -1;
      }

      if runtimePlayerID >= 0 {
        if runtimePlayerID in e.playerData {
          var playerData := e.playerData[runtimePlayerID];
          if sceneToCheck == Previous {
            actualSceneNumber := playerData.previousScene;
          } else {
            actualSceneNumber := playerData.currentScene;
          }

          if chooseSceneByPlayerSwitching == PlayerSwitchingCode(CurrentMain) {
            return actualSceneNumber == e.currentSceneIndex;
          }
          chooseSceneBy := ChooseSceneByFromCode(chooseSceneByPlayerSwitching);
        }
      } else {
        if sceneToCheck == Previous {
          actualSceneNumber := e.previousSceneIndex;
        } else {
          actualSceneNumber := e.currentSceneIndex;
        }
      }

      if actualSceneNumber == -1 && sceneToCheck == Previous {
        return false;
      }

      var actualSceneName := e.indexToName(actualSceneNumber);

      if intCondition == EqualTo {
        if chooseSceneBy == SceneChoice.Name && actualSceneName == e.convertTokens(sceneName) {
          return true;
        }
        if chooseSceneBy == SceneChoice.Number && actualSceneNumber == sceneNumber {
          return true;
        }
      } else if intCondition == NotEqualTo {
        if chooseSceneBy == SceneChoice.Name && actualSceneName != e.convertTokens(sceneName) {
          return true;
        }
        if chooseSceneBy == SceneChoice.Number && actualSceneNumber != sceneNumber {
          return true;
        }
      }

      return false;
    }
  }
}
