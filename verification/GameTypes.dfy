/** The documents the game daemon stores and the scoreboard reads. */
module GameTypes {

  datatype Option<+T> = None | Some(value: T)

  datatype Capture = Capture(team: string, time: int)

  datatype Check = Check(time: int, result: bool)

  /** One document of the `flags` collection. */
  datatype Doc = Doc(id: string, name: string, team: string, service: string,
                     captures: seq<Capture>, checks: seq<Check>, delivered: bool, time: int)

  datatype Rank = Rank(team: string, time: int, points: int)

  /** One document of the `challenges` collection. */
  datatype Challenge = Challenge(id: string, rank: seq<Rank>)

  /** The four point values of the configuration. */
  datatype Points = Points(deliver: int, capture: int, defend: int, check: int)

  /** What `child_process.exec` reports: a number, or no number when a signal ended the child. */
  datatype Status = Exit(code: int) | NoCode

  function CapturesBy(captures: seq<Capture>, team: string): nat {
    if captures == [] then 0
    else CapturesBy(captures[..|captures| - 1], team) + if captures[|captures| - 1].team == team then 1 else 0
  }

  function CaptureTeams(captures: seq<Capture>): set<string> {
    if captures == [] then {}
    else CaptureTeams(captures[..|captures| - 1]) + {captures[|captures| - 1].team}
  }

  /** The teams that own or have captured a flag. */
  function FlagTeams(docs: seq<Doc>): set<string> {
    if docs == [] then {}
    else var d := docs[|docs| - 1]; FlagTeams(docs[..|docs| - 1]) + {d.team} + CaptureTeams(d.captures)
  }

  /** How many captures a team has on record. */
  function StolenBy(docs: seq<Doc>, team: string): nat {
    if docs == [] then 0 else StolenBy(docs[..|docs| - 1], team) + CapturesBy(docs[|docs| - 1].captures, team)
  }

  function GoodChecks(checks: seq<Check>): nat {
    if checks == [] then 0
    else GoodChecks(checks[..|checks| - 1]) + if checks[|checks| - 1].result then 1 else 0
  }

  /** The points a document is worth to `team`, the reading every later computation is held against. */
  function DocPoints(p: Points, doc: Doc, team: string): int {
    (if doc.team == team then OwnerPoints(p, doc) else 0) + CapturesBy(doc.captures, team) * p.capture
  }

  function OwnerPoints(p: Points, doc: Doc): int {
    PlantPoints(p, doc) + GoodChecks(doc.checks) * p.check
  }

  /** The part of a document's worth that is fixed at its plant time. */
  function PlantPoints(p: Points, doc: Doc): int {
    if !doc.delivered then 0 else p.deliver + if doc.captures == [] then p.defend else 0
  }

  function RankPoints(ranks: seq<Rank>, team: string): int {
    if ranks == [] then 0
    else RankPoints(ranks[..|ranks| - 1], team)
         + if ranks[|ranks| - 1].team == team then ranks[|ranks| - 1].points else 0
  }

  function DocsPoints(p: Points, docs: seq<Doc>, team: string): int {
    if docs == [] then 0
    else DocsPoints(p, docs[..|docs| - 1], team) + DocPoints(p, docs[|docs| - 1], team)
  }

  function ChallengesPoints(challenges: seq<Challenge>, team: string): int {
    if challenges == [] then 0
    else ChallengesPoints(challenges[..|challenges| - 1], team) + RankPoints(challenges[|challenges| - 1].rank, team)
  }

  /** Everything the stored documents say a team has earned. */
  function Worth(p: Points, docs: seq<Doc>, challenges: seq<Challenge>, team: string): int {
    DocsPoints(p, docs, team) + ChallengesPoints(challenges, team)
  }
}
