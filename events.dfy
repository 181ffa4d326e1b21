/**
  The event payload the hooks hand to the event dialog (`{ type, description, options }`)
  and the dialog's open flag. Narratives are kept as data: which outcome was reported and
  with which numbers, not the Hebrew or English sentences.
*/
module Events {
  import opened Cargo

  /** The risks a voyage can carry. */
  datatype Risk = Pirate | Storm | DesertedShips

  /** The `type` string each risk is shown under. */
  function RiskName(r: Risk): string
  {
    match r
    case Pirate => "Pirate"
    case Storm => "Storm"
    case DesertedShips => "Deserted Ships"
  }

  /** Which description an event carries. */
  datatype Narrative =
    | Blank
    | PirateApproach
    | StormLoss(lost: seq<Stack>)
    | HoldFull
    | CurrentsBlock
    | AlreadyLooted
    | NothingFound
    | Salvaged(kind: string, amount: int)

  datatype EventData = EventData(kind: string, description: Narrative, options: seq<string>)

  /** The option values a pirate encounter offers. */
  const PIRATE_OPTIONS: seq<string> := ["escape", "negotiate", "fight"]

  /** The event dialog's state cells: the payload and whether it is open. */
  class EventDialog {
    var data: EventData
    var open: bool

    constructor ()
      ensures data == EventData("", Blank, []) && !open
    {
      data := EventData("", Blank, []);
      open := false;
    }
  }
}
