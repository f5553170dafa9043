/**
 * The challenge list of the dashboard: the colour given to a difficulty
 * label, and starting a challenge, which either opens the English practice
 * or marks the challenge in progress with a repository URL built from its
 * title.
 */
module Dashboard {
  import opened Wrappers
  import opened Text

  /** A challenge card; `kind` is the optional `type` field. */
  datatype Challenge = Challenge(
    id: string,
    title: string,
    description: string,
    difficulty: string,
    status: string,
    repoUrl: Option<string>,
    kind: Option<string>)

  /** The Tailwind text colour of `hue`: shade 400 on dark backgrounds,
      600 on light ones. */
  function TextColor(hue: string, isDarkMode: bool): string {
    "text-" + hue + (if isDarkMode then "-400" else "-600")
  }

  /** `getDifficultyColor(difficulty)`: the three difficulty names are
      recognised whatever their case. */
  function DifficultyColor(difficulty: string, isDarkMode: bool): (r: string)
    ensures ToLower(difficulty) == "fácil" ==> r == TextColor("green", isDarkMode)
    ensures ToLower(difficulty) == "intermedio" ==> r == TextColor("yellow", isDarkMode)
    ensures ToLower(difficulty) == "difícil" ==> r == TextColor("red", isDarkMode)
    ensures (&& ToLower(difficulty) != "fácil"
             && ToLower(difficulty) != "intermedio"
             && ToLower(difficulty) != "difícil") ==> r == TextColor("gray", isDarkMode)
  {
    match ToLower(difficulty)
    case "fácil" => if isDarkMode then "text-green-400" else "text-green-600"
    case "intermedio" => if isDarkMode then "text-yellow-400" else "text-yellow-600"
    case "difícil" => if isDarkMode then "text-red-400" else "text-red-600"
    case _ => if isDarkMode then "text-gray-400" else "text-gray-600"
  }

  /** A label gets the same colour as its lower-cased form. */
  lemma DifficultyColorIgnoresCase(difficulty: string, isDarkMode: bool)
    ensures DifficultyColor(ToLower(difficulty), isDarkMode) == DifficultyColor(difficulty, isDarkMode)
  {
    ToLowerIdempotent(difficulty);
  }

  /** The capitalised labels the sample challenges carry are recognised. */
  lemma CapitalizedHardIsRed(isDarkMode: bool)
    ensures DifficultyColor("Difícil", isDarkMode) == TextColor("red", isDarkMode)
  {
    CapitalizedToLower('D', "ifícil");
    assert ['D'] + "ifícil" == "Difícil";
  }

  lemma CapitalizedIntermediateIsYellow(isDarkMode: bool)
    ensures DifficultyColor("Intermedio", isDarkMode) == TextColor("yellow", isDarkMode)
  {
    CapitalizedToLower('I', "ntermedio");
    assert ['I'] + "ntermedio" == "Intermedio";
  }

  /** Lower-casing a word whose only capital is its first letter. */
  lemma CapitalizedToLower(first: char, rest: string)
    requires 'A' <= first <= 'Z'
    requires forall i :: 0 <= i < |rest| ==> LowerChar(rest[i]) == rest[i]
    ensures ToLower([first] + rest) == [(first as int + 32) as char] + rest
  {
  }

  /** The repository slug of a title: lower-cased, spaces turned to hyphens. */
  function Slug(title: string): (s: string)
    ensures |s| == |title|
    ensures forall i :: 0 <= i < |title| ==>
              s[i] == if LowerChar(title[i]) == ' ' then '-' else LowerChar(title[i])
  {
    SpacesToHyphens(ToLower(title))
  }

  /** A slug never contains a space. */
  lemma SlugHasNoSpace(title: string)
    ensures ' ' !in Slug(title)
  {
  }

  const RepoBase: string := "https://github.com/username/"

  /** The repository URL assigned to a started challenge. */
  function RepoUrl(title: string): (u: string)
    ensures |u| == |RepoBase| + |title|
    ensures u[..|RepoBase|] == RepoBase && u[|RepoBase|..] == Slug(title)
  {
    RepoBase + Slug(title)
  }

  /** The `map` callback: the challenge with the started id goes in
      progress with its repository URL, any other stays as it is. */
  function Start(c: Challenge, id: string): (r: Challenge)
    ensures r.(status := c.status, repoUrl := c.repoUrl) == c
    ensures c.id == id ==> r.status == "in_progress" && r.repoUrl == Some(RepoUrl(c.title))
    ensures c.id != id ==> r == c
  {
    if c.id == id then c.(status := "in_progress", repoUrl := Some(RepoUrl(c.title))) else c
  }

  /** `challenges.map(...)` over the whole list. */
  function MarkStarted(challenges: seq<Challenge>, id: string): (r: seq<Challenge>)
    ensures |r| == |challenges|
    decreases |challenges|
  {
    if challenges == [] then [] else [Start(challenges[0], id)] + MarkStarted(challenges[1..], id)
  }

  /** Position by position: a challenge with the started id gets status
      "in_progress" and the URL of its own title, all its other fields
      kept; every other challenge is unchanged. */
  lemma {:induction false} MarkStartedAt(challenges: seq<Challenge>, id: string, i: int)
    requires 0 <= i < |challenges|
    ensures var c, r := challenges[i], MarkStarted(challenges, id)[i];
            && (c.id == id ==> r == c.(status := "in_progress", repoUrl := Some(RepoUrl(c.title))))
            && (c.id != id ==> r == c)
    decreases |challenges|
  {
    if i > 0 {
      MarkStartedAt(challenges[1..], id, i - 1);
    }
  }

  /** What `handleStartChallenge` does: where it navigates, and the
      challenge list afterwards. */
  datatype StartResult = StartResult(navigateTo: string, challenges: seq<Challenge>)

  /** `handleStartChallenge(challenge)` against the current list. */
  function HandleStartChallenge(challenges: seq<Challenge>, challenge: Challenge): (r: StartResult)
    ensures challenge.kind == Some("english") ==>
              r.navigateTo == "/english-practice" && r.challenges == challenges
    ensures challenge.kind != Some("english") ==>
              r.navigateTo == "/challenges/" + challenge.id
              && r.challenges == MarkStarted(challenges, challenge.id)
  {
    if challenge.kind == Some("english") then
      StartResult("/english-practice", challenges)
    else
      StartResult("/challenges/" + challenge.id, MarkStarted(challenges, challenge.id))
  }

  /** Starting a challenge whose id is not on the list changes nothing on
      it; starting one twice is the same as starting it once. */
  lemma {:induction false} MarkStartedIdempotent(challenges: seq<Challenge>, id: string)
    ensures MarkStarted(MarkStarted(challenges, id), id) == MarkStarted(challenges, id)
    ensures (forall i :: 0 <= i < |challenges| ==> challenges[i].id != id) ==>
              MarkStarted(challenges, id) == challenges
    decreases |challenges|
  {
    if challenges != [] {
      MarkStartedIdempotent(challenges[1..], id);
      assert MarkStarted(challenges, id)[1..] == MarkStarted(challenges[1..], id);
    }
  }
}
