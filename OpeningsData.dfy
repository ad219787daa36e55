/**
 * The static opening sets served by the backend: the `Opening` record,
 * its serialisation to a JSON-style dictionary, the table of sets keyed
 * by canonical set name, and the lookup that falls back to an empty list.
 */
module OpeningsData {

  import opened Wrappers

  /** A chess opening: its name, its SAN move list and a short description.
      A datatype value, hence immutable, like the frozen record it models. */
  datatype Opening = Opening(name: string, moves: seq<string>, description: string)

  /** A value of the serialised dictionary: a string or a list of strings. */
  datatype Field = Text(text: string) | TextList(items: seq<string>)

  /** A serialised opening: a dictionary from field name to value. */
  type Record = map<string, Field>

  /** Reads a serialised opening back, as the frontend does when it uses
      `name`, `moves` and `description`; `None` when a field is missing or
      has the wrong shape. */
  function FromDict(d: Record): Option<Opening> {
    if && "name" in d && d["name"].Text?
       && "moves" in d && d["moves"].TextList?
       && "description" in d && d["description"].Text?
    then Some(Opening(d["name"].text, d["moves"].items, d["description"].text))
    else None
  }

  /** Serialises an opening to a dictionary with exactly its three fields. */
  function ToDict(o: Opening): (d: Record)
    ensures d.Keys == {"name", "moves", "description"}
    ensures FromDict(d) == Some(o)
  {
    map["name" := Text(o.name), "moves" := TextList(o.moves), "description" := Text(o.description)]
  }

  const StarterOpenings: seq<Opening> :=
    [
      Opening("Ruy Lopez", ["e4", "e5", "Nf3", "Nc6", "Bb5"],
              "Classic central control and pressure on c6."),
      Opening("Sicilian Defense", ["e4", "c5"],
              "Dynamic counter to 1.e4 aiming for imbalanced play."),
      Opening("French Defense", ["e4", "e6"],
              "Solid structure with ...d5 challenging the center."),
      Opening("Caro-Kann Defense", ["e4", "c6"],
              "Healthy structure; Black strikes with ...d5."),
      Opening("Italian Game", ["e4", "e5", "Nf3", "Nc6", "Bc4"],
              "Rapid development and pressure on f7."),
      Opening("Queen's Gambit", ["d4", "d5", "c4"],
              "Offer a pawn to deflect ...d5 and gain space."),
      Opening("King's Indian Defense", ["d4", "Nf6", "c4", "g6"],
              "Hypermodern: concede center, strike later."),
      Opening("English Opening", ["c4"],
              "Flexible flank opening, often transposes."),
      Opening("Nimzo-Indian Defense", ["d4", "Nf6", "c4", "e6", "Nc3", "Bb4"],
              "Pressure on c3; doubled pawns themes."),
      Opening("Scotch Game", ["e4", "e5", "Nf3", "Nc6", "d4"],
              "Open lines and tactical play.")
    ]

  const Level2Openings: seq<Opening> :=
    [
      Opening("Grünfeld Defense", ["d4", "Nf6", "c4", "g6"],
              "A dynamic hypermodern defense where Black attacks White's center with ...d5 later."),
      Opening("Benoni Defense", ["d4", "Nf6", "c4", "e6"],
              "A sharp Indian-style setup aiming for counterplay on dark squares and queenside."),
      Opening("Pirc Defense", ["e4", "d6"],
              "Flexible, hypermodern setup for Black; invites White to build a center first."),
      Opening("Dutch Defense", ["d4", "f5"],
              "Fights immediately for e4 and kingside play; leads to asymmetrical middlegames."),
      Opening("Alekhine's Defense", ["e4", "Nf6"],
              "Provocative: Black tempts White to overextend the center, then attacks it."),
      Opening("Catalan Opening", ["d4", "Nf6", "c4", "e6", "g3"],
              "Queen's Gambit + fianchetto: long-term pressure on the dark squares and queenside."),
      Opening("King's Gambit", ["e4", "e5", "f4"],
              "Romantic-era gambit for rapid development and open f-file tactics."),
      Opening("Evans Gambit", ["e4", "e5", "Nf3", "Bc5", "b4"],
              "White gambits a pawn to gain time on the bishop and seize the initiative."),
      Opening("Two Knights Defense", ["e4", "e5", "Nf3", "Nc6", "Bc4"],
              "Leads to tactical skirmishes (e.g., Fried Liver motifs) and open play."),
      Opening("Scandinavian Defense", ["e4", "d5"],
              "Direct challenge to the center; early queen activity and solid structure."),
      Opening("Queen's Gambit Declined", ["d4", "d5", "c4", "e6"],
              "Classical response to 1.d4—solid central structure and rich strategic play."),
      Opening("Slav Defense", ["d4", "d5", "c4", "c6"],
              "Rock-solid defense to the QG; aims for sturdy pawn structure and counterplay."),
      Opening("Petroff (Russian) Defense", ["e4", "e5", "Nf3", "Nf6"],
              "Ultra-reliable 1.e4 defense focused on symmetry and early central exchanges."),
      Opening("Berlin Defense (Ruy Lopez)", ["e4", "e5", "Nf3", "Nc6", "Bb5", "Nf6"],
              "Elite-level mainstay; trades queens early and tests White’s endgame technique."),
      Opening("London System", ["d4", "Nf6", "Nf3", "e6", "Bf4"],
              "Club favorite: quick development with Bf4; resilient and plan-based."),
      Opening("Sicilian Najdorf", ["e4", "c5", "Nf3", "d6", "d4", "cxd4", "Nxd4", "Nf6", "Nc3", "a6"],
              "Iconic Sicilian branch—flexible, dynamic positions with rich theory.")
    ]

  const WackyOpenings: seq<Opening> :=
    [
      Opening("Bongcloud Attack", ["e4", "e5", "Ke2"],
              "The infamous king walk—high on meme value, low on theory."),
      Opening("Halloween Gambit", ["e4", "e5", "Nf3", "Nc6", "Nc3", "Nf6", "Nxe5", "Nxe5", "d4"],
              "From the Four Knights: sac a knight for central space and initiative."),
      Opening("Stafford Gambit", ["e4", "e5", "Nf3", "Nf6", "Nxe5", "Nc6"],
              "Viral Petrov trap for Black with quick tactics on f2/f7."),
      Opening("Wayward Queen Attack", ["e4", "e5", "Qh5", "Nc6", "Bc4"],
              "Early Qh5 aiming at f7—can transpose to Scholar’s motifs."),
      Opening("Grob Attack", ["g4", "d5", "Bg2"],
              "1.g4!?—offbeat flank thrust; invites chaos and counterplay."),
      Opening("Orangutan (Sokolsky) Opening", ["b4", "e5", "Bb2"],
              "1.b4—queenside lunge with flexible ideas; named after an orangutan."),
      Opening("Danish Gambit", ["e4", "e5", "d4", "exd4", "c3"],
              "Sac pawns for rapid development and open lines at f7."),
      Opening("Englund Gambit", ["d4", "e5"],
              "Cheeky response to 1.d4; immediate central gambit by Black."),
      Opening("Latvian Gambit", ["e4", "e5", "Nf3", "f5"],
              "Ultra-aggressive counter; sharp tactics from move two."),
      Opening("Fried Liver Attack", ["e4", "e5", "Nf3", "Nc6", "Bc4", "Nf6", "Ng5", "d5", "exd5"],
              "Classic sac ideas on f7 from the Two Knights."),
      Opening("Elephant Gambit", ["e4", "e5", "Nf3", "d5"],
              "Bold central counter after 2.Nf3; practical surprise weapon."),
      Opening("Scotch Gambit", ["e4", "e5", "Nf3", "Nc6", "d4", "exd4", "Bc4"],
              "Open, tactical positions with fast development for White.")
    ]

  /** The registered sets, keyed by canonical set name. */
  const Sets: map<string, seq<Opening>> :=
    map[
      "Starter Opening Set" := StarterOpenings,
      "Level 2 Set" := Level2Openings,
      "Wacky Set" := WackyOpenings
    ]

  /** The openings registered under `setName`, or none for an unknown name. */
  function Registered(setName: string): seq<Opening> {
    if setName in Sets then Sets[setName] else []
  }

  /** The serialised openings of a set, in registration order; an unknown
      set name gives the empty list. */
  function GetOpenings(setName: string): (r: seq<Record>)
    ensures setName !in Sets ==> r == []
    ensures |r| == |Registered(setName)|
    ensures forall i :: 0 <= i < |r| ==> FromDict(r[i]) == Some(Registered(setName)[i])
  {
    var openings := Registered(setName);
    seq(|openings|, i requires 0 <= i < |openings| => ToDict(openings[i]))
  }

  /** No two openings of the list share a name. */
  predicate UniqueNames(openings: seq<Opening>) {
    forall i, j :: 0 <= i < j < |openings| ==> openings[i].name != openings[j].name
  }

  /** Exactly three sets are registered, with 10, 16 and 12 openings. */
  lemma RegisteredSets()
    ensures Sets.Keys == {"Starter Opening Set", "Level 2 Set", "Wacky Set"}
    ensures |Registered("Starter Opening Set")| == 10
    ensures |Registered("Level 2 Set")| == 16
    ensures |Registered("Wacky Set")| == 12
  {
  }

  /** Within every registered set the names, the quiz's answer keys, are
      unique, and every set is large enough for four choices. */
  lemma RegisteredSetsWellFormed(setName: string)
    requires setName in Sets
    ensures UniqueNames(Registered(setName))
    ensures |Registered(setName)| >= 4
  {
  }
}
