/** The challenge selection dialog
    (components/dialogs/select-typing-category-dialog.jsx): the two tables
    of time options, the handlers that write the game settings, and the
    rule that enables the confirm button. The settings store the dialog
    writes is a class with the three fields it uses; a JavaScript value
    that is null, undefined or "" is modelled as "". */
module CategoryDialog {
  import opened Common

  /** One radio option: an id, a label and a time such as "45 seconds". */
  datatype TimeOption = TimeOption(id: string, name: string, time: string)

  /** What `handleConfirm` passes to `onConfirm`. */
  datatype Selection = Selection(challangeType: string, time: string)

  const WordsTimes: seq<TimeOption> := [
    TimeOption("easy", "Easy", "45 seconds"),
    TimeOption("medium", "Medium", "30 seconds"),
    TimeOption("hard", "Hard", "15 seconds")
  ]

  const ParagraphsTimes: seq<TimeOption> := [
    TimeOption("easy", "Easy", "60 seconds"),
    TimeOption("medium", "Medium", "30 seconds"),
    TimeOption("hard", "Hard", "15 seconds")
  ]

  /** The table `handleTimeChange` searches: the words table for the
      "words" challenge, the paragraphs table for every other value. */
  function TableFor(challangeType: string): (t: seq<TimeOption>)
    ensures t == WordsTimes <==> challangeType == "words"
    ensures t == ParagraphsTimes <==> challangeType != "words"
  {
    if challangeType == "words" then WordsTimes else ParagraphsTimes
  }

  /** `table.find((t) => t.id === timeId)`. */
  function FindOption(table: seq<TimeOption>, timeId: string): (r: Option<TimeOption>)
    ensures r.None? <==> forall i :: 0 <= i < |table| ==> table[i].id != timeId
    ensures r.Some? ==> exists i :: 0 <= i < |table| && table[i] == r.value && r.value.id == timeId
                                  && forall j :: 0 <= j < i ==> table[j].id != timeId
  {
    if table == [] then None
    else if table[0].id == timeId then Some(table[0])
    else
      var r := FindOption(table[1..], timeId);
      assert r.Some? ==> exists i :: 1 <= i < |table| && table[i] == r.value && r.value.id == timeId
                                   && forall j :: 0 <= j < i ==> table[j].id != timeId by {
        if r.Some? {
          var i :| 0 <= i < |table[1..]| && table[1..][i] == r.value && r.value.id == timeId
                   && forall j :: 0 <= j < i ==> table[1..][j].id != timeId;
          assert forall j :: 0 <= j < i + 1 ==> table[j].id != timeId by {
            forall j | 0 <= j < i + 1 ensures table[j].id != timeId {
              if j > 0 { assert table[j] == table[1..][j - 1]; }
            }
          }
        }
      }
      r
  }

  /** `s.split(" ")[0]`: the text before the first space, or all of `s`. */
  function FirstWord(s: string): (r: string)
    ensures r <= s && ' ' !in r
    ensures |r| < |s| ==> s[|r|] == ' '
  {
    if s == [] || s[0] == ' ' then ""
    else [s[0]] + FirstWord(s[1..])
  }

  /** The difficulty a time prefix stands for: "15" is hard, "30" medium,
      and every other prefix easy. */
  function DifficultyFor(time: string): (r: string)
    ensures r in {"easy", "medium", "hard"}
    ensures r == "hard" <==> time == "15"
    ensures r == "medium" <==> time == "30"
  {
    if time == "15" then "hard"
    else if time == "30" then "medium"
    else "easy"
  }

  /** `canSave = challangeType && time`, as a condition. */
  predicate CanSave(challangeType: string, time: string)
  {
    challangeType != "" && time != ""
  }

  /** `disabled={!canSave || isLoading}`: the button is disabled while a
      challenge type or a time is missing, or while loading. */
  predicate ConfirmDisabled(challangeType: string, time: string, isLoading: bool)
  {
    !CanSave(challangeType, time) || isLoading
  }

  /** Exactly the three ids the tables offer can be looked up, in either
      table; any other id leaves the lookup undefined. */
  lemma LookupDefinedIff(challangeType: string, timeId: string)
    ensures FindOption(TableFor(challangeType), timeId).Some? <==> timeId in {"easy", "medium", "hard"}
  {
    var t := TableFor(challangeType);
    assert t[0].id == "easy" && t[1].id == "medium" && t[2].id == "hard";
    assert t[1..][1..] == [t[2]];
  }

  /** The time prefix each option stores. */
  lemma TimePrefixes(challangeType: string, timeId: string)
    requires timeId in {"easy", "medium", "hard"}
    ensures var o := FindOption(TableFor(challangeType), timeId);
            o.Some? &&
            FirstWord(o.value.time) ==
              if timeId == "hard" then "15"
              else if timeId == "medium" then "30"
              else if challangeType == "words" then "45" else "60"
  {
    var t := TableFor(challangeType);
    SecondsPrefix(t[0].time);
    SecondsPrefix(t[1].time);
    SecondsPrefix(t[2].time);
    FindInTable(t, timeId);
  }

  /** In a table of easy, medium and hard, each id finds its own row. */
  lemma FindInTable(t: seq<TimeOption>, timeId: string)
    requires |t| == 3 && t[0].id == "easy" && t[1].id == "medium" && t[2].id == "hard"
    requires timeId in {"easy", "medium", "hard"}
    ensures FindOption(t, timeId) == Some(if timeId == "easy" then t[0] else if timeId == "medium" then t[1] else t[2])
  {
    assert t[1..][0] == t[1];
    assert t[1..][1..] == [t[2]];
  }

  /** The prefix of a time such as "45 seconds": its first two characters. */
  lemma SecondsPrefix(time: string)
    requires |time| >= 3 && time[0] != ' ' && time[1] != ' ' && time[2] == ' '
    ensures FirstWord(time) == [time[0], time[1]]
  {
    assert time[1..][1..][0] == ' ';
    assert FirstWord(time[1..]) == [time[1]];
  }

  /** Choosing an option sets the difficulty to the option's own id, in
      either table: the time-to-difficulty rule inverts the tables. */
  lemma DifficultyMatchesOption(challangeType: string, timeId: string)
    requires timeId in {"easy", "medium", "hard"}
    ensures DifficultyFor(FirstWord(FindOption(TableFor(challangeType), timeId).value.time)) == timeId
  {
    TimePrefixes(challangeType, timeId);
  }

  /** Once a challenge tab is chosen, picking any offered time makes saving
      possible. */
  lemma ChosenTimeEnablesSave(challangeType: string, timeId: string)
    requires challangeType != "" && timeId in {"easy", "medium", "hard"}
    ensures CanSave(challangeType, FirstWord(FindOption(TableFor(challangeType), timeId).value.time))
  {
    TimePrefixes(challangeType, timeId);
  }

  /** After a tab and a time are chosen, the confirm button is enabled
      exactly when nothing is loading. */
  lemma ConfirmEnabledAfterChoice(challangeType: string, timeId: string, isLoading: bool)
    requires challangeType != "" && timeId in {"easy", "medium", "hard"}
    ensures !ConfirmDisabled(challangeType, FirstWord(FindOption(TableFor(challangeType), timeId).value.time), isLoading)
            <==> !isLoading
  {
    ChosenTimeEnablesSave(challangeType, timeId);
  }

  /** The game-settings fields the dialog reads and writes. */
  class GameSettings {
    var difficulty: string
    var time: string
    var challangeType: string

    constructor (difficulty: string, time: string, challangeType: string)
      ensures this.difficulty == difficulty && this.time == time && this.challangeType == challangeType
    {
      this.difficulty, this.time, this.challangeType := difficulty, time, challangeType;
    }

    /** `handleTabChange`: only the challenge type changes. */
    method HandleTabChange(tab: string)
      modifies this`challangeType
      ensures challangeType == tab
      ensures time == old(time) && difficulty == old(difficulty)
    {
      challangeType := tab;
    }

    /** `handleTimeChange`: store the option's time prefix, then the
        difficulty it stands for. An id the table lacks would dereference
        an undefined option, hence the precondition. */
    method HandleTimeChange(timeId: string)
      requires FindOption(TableFor(challangeType), timeId).Some?
      modifies this`time, this`difficulty
      ensures time == FirstWord(FindOption(TableFor(challangeType), timeId).value.time)
      ensures difficulty == timeId
      ensures challangeType != "" ==> CanSave(challangeType, time)
      ensures challangeType == old(challangeType)
    {
      var selected := FindOption(TableFor(challangeType), timeId);
      time := FirstWord(selected.value.time);
      LookupDefinedIff(challangeType, timeId);
      DifficultyMatchesOption(challangeType, timeId);
      if challangeType != "" {
        ChosenTimeEnablesSave(challangeType, timeId);
      }
      difficulty := DifficultyFor(time);
    }

    /** `handleConfirm`: passes exactly the challenge type and the time. */
    method HandleConfirm() returns (s: Selection)
      ensures s.challangeType == challangeType && s.time == time
    {
      s := Selection(challangeType, time);
    }
  }
}
