/** The owner portal's destination pricing page (owner-portal/pages/BusPricing.tsx):
    a price per bus and destination tier, kept in a matrix that is saved to
    `localStorage`, and shared with the backend when online. Number parsing
    and formatting (`Number(...)`, `toString`, `toFixed(2)`), the clock and
    the pricing request are parameters. */
module BusPricing {
  import opened Common
  import opened Browser

  /** A destination tier and its suggested price. */
  datatype DestinationPreset = DestinationPreset(id: string, name: string, description: string, suggestion: real)

  const DestinationPresets: seq<DestinationPreset> := [
    DestinationPreset("CITY", "Within City (0-80 km)", "Corporate shuttles, local events, airport drops.", 32000.0),
    DestinationPreset("NEARBY", "Nearby City (80-250 km)", "Day trips with driver returning the same night.", 42000.0),
    DestinationPreset("OUTSTATION", "Outstation (250-500 km)", "Weekend getaways with stay requirements.", 58000.0),
    DestinationPreset("LONG_HAUL", "Long Haul (500+ km)", "Multi-day itineraries across states.", 72000.0)
  ]

  /** The first preset with id `id`, if any. */
  function PresetOf(id: string): (p: Option<DestinationPreset>)
    ensures p.Some? ==> p.value in DestinationPresets && p.value.id == id
    ensures p.None? ==> forall k :: 0 <= k < |DestinationPresets| ==> DestinationPresets[k].id != id
  {
    match FindIndex(DestinationPresets, (item: DestinationPreset) => item.id == id)
    case None => None
    case Some(i) => Some(DestinationPresets[i])
  }

  /** The price per bus id and tier id. */
  type PricingMatrix = map<string, map<string, real>>

  /** The price saved for `busId` and `tierId`, if any (`matrix[busId] ?? {}`
      then `[tierId]`). */
  function SavedPrice(matrix: PricingMatrix, busId: string, tierId: string): (r: Option<real>)
    ensures r.Some? <==> busId in matrix && tierId in matrix[busId]
    ensures r.Some? ==> r.value == matrix[busId][tierId]
  {
    if busId in matrix && tierId in matrix[busId] then Some(matrix[busId][tierId]) else None
  }

  /** The price input's default: `''` without a selected bus; the saved
      price when there is a non-zero one; else the preset's suggestion; else
      `''`. `toText` is `Number.prototype.toString`. */
  function DefaultInput(selectedBusId: Option<string>, matrix: PricingMatrix, tierId: string,
                        toText: real -> string): (r: string)
    ensures !Present(selectedBusId) ==> r == ""
    ensures Present(selectedBusId) && SavedPrice(matrix, selectedBusId.value, tierId).Some?
            && SavedPrice(matrix, selectedBusId.value, tierId).value != 0.0
            ==> r == toText(SavedPrice(matrix, selectedBusId.value, tierId).value)
    ensures Present(selectedBusId)
            && (SavedPrice(matrix, selectedBusId.value, tierId).None? || SavedPrice(matrix, selectedBusId.value, tierId).value == 0.0)
            ==> r == if PresetOf(tierId).Some? then toText(PresetOf(tierId).value.suggestion) else ""
  {
    if !Present(selectedBusId) then ""
    else
      var stored := SavedPrice(matrix, selectedBusId.value, tierId);
      if stored.Some? && stored.value != 0.0 then toText(stored.value)
      else if PresetOf(tierId).Some? then toText(PresetOf(tierId).value.suggestion)
      else ""
  }

  /** The route label sent with a price: the preset's label, or
      `'Custom route'` for a tier that is not a preset. */
  function RouteLabel(tierId: string): (routeName: string)
    ensures PresetOf(tierId).Some? ==> routeName == PresetOf(tierId).value.name
    ensures PresetOf(tierId).None? ==> routeName == "Custom route"
  {
    match PresetOf(tierId)
    case Some(p) => p.name
    case None => "Custom route"
  }

  /** `notePayload`: the truthy parts among `Route: <label>` (always
      truthy) and `Note: <trimmed note>` (present when the trimmed note is
      not empty), joined by `' | '`. */
  function NotePayload(routeName: string, note: string): (r: string)
  {
    var parts := ["Route: " + routeName] + (if Trim(note) != "" then ["Note: " + Trim(note)] else []);
    Join(parts, " | ")
  }

  /** The note payload always names the route, adds the trimmed note only
      when there is one, and is never empty, so `notePayload || undefined`
      always sends it. */
  lemma NotePayloadShape(routeName: string, note: string)
    ensures Trim(note) == "" ==> NotePayload(routeName, note) == "Route: " + routeName
    ensures Trim(note) != "" ==> NotePayload(routeName, note) == "Route: " + routeName + " | Note: " + Trim(note)
    ensures NotePayload(routeName, note) != ""
  {
    var route := "Route: " + routeName;
    if Trim(note) != "" {
      var parts := [route, "Note: " + Trim(note)];
      assert Join(parts[1..], " | ") == "Note: " + Trim(note);
    }
    assert |NotePayload(routeName, note)| >= |"Route: "|;
  }

  /** Saving `amount` for `busId` and `tierId`: that cell is set, and every
      other cell of the matrix, in that bus or any other, is as it was. */
  function SetPrice(matrix: PricingMatrix, busId: string, tierId: string, amount: real): (r: PricingMatrix)
    ensures SavedPrice(r, busId, tierId) == Some(amount)
    ensures forall b, t :: (b, t) != (busId, tierId) ==> SavedPrice(r, b, t) == SavedPrice(matrix, b, t)
    ensures r.Keys == matrix.Keys + {busId}
  {
    var row := if busId in matrix then matrix[busId] else map[];
    matrix[busId := row[tierId := amount]]
  }

  /** The pricing shown on a bus card. */
  datatype PriceTag = PriceTag(expectedPrice: string, lastUpdatedAt: string)

  /** The part of an owner's bus the page reads and writes. */
  datatype PricedBus = PricedBus(id: string, title: string, pricing: Option<PriceTag>)

  /** Only the buses with id `busId` get the new price tag. */
  function TagBuses(buses: seq<PricedBus>, busId: string, tag: PriceTag): (r: seq<PricedBus>)
    ensures |r| == |buses|
    ensures forall k :: 0 <= k < |r| && buses[k].id == busId ==> r[k] == buses[k].(pricing := Some(tag))
    ensures forall k :: 0 <= k < |r| && buses[k].id != busId ==> r[k] == buses[k]
  {
    MapSeq(buses, (bus: PricedBus) => if bus.id == busId then bus.(pricing := Some(tag)) else bus)
  }

  /** A price just saved for the selected bus becomes the input's default
      for that tier. */
  lemma SavedPriceIsDefault(matrix: PricingMatrix, busId: string, tierId: string, amount: real, toText: real -> string)
    requires busId != "" && amount > 0.0
    ensures DefaultInput(Some(busId), SetPrice(matrix, busId, tierId, amount), tierId, toText) == toText(amount)
  {
  }

  const InvalidAmountMessage := "Enter a valid amount above zero."
  const SyncFailedMessage := "Unable to update price. Please retry in a moment."

  /** The state of the pricing page. */
  class PricingPage {
    var buses: seq<PricedBus>
    var selectedBusId: Option<string>
    var destinationPricing: PricingMatrix
    var selectedDestinationId: string
    var expectedPriceInput: string
    var note: string
    var saving: bool
    var feedback: Option<Feedback>
    var offline: bool
    /** `session?.user?.ownerProfile?.id` and `session?.token`. */
    var ownerId: Option<string>
    var token: Option<string>
    /** The matrix last written to `localStorage` under `ownerDestinationPricing`. */
    var persisted: Option<PricingMatrix>

    constructor (buses: seq<PricedBus>, selectedBusId: Option<string>, offline: bool,
                 ownerId: Option<string>, token: Option<string>)
      ensures this.buses == buses && this.selectedBusId == selectedBusId && destinationPricing == map[]
      ensures selectedDestinationId == "CITY" && expectedPriceInput == "" && note == ""
      ensures !saving && feedback.None? && persisted.None?
      ensures this.offline == offline && this.ownerId == ownerId && this.token == token
    {
      this.buses := buses;
      this.selectedBusId := selectedBusId;
      destinationPricing := map[];
      selectedDestinationId := DestinationPresets[0].id;
      expectedPriceInput := "";
      note := "";
      saving := false;
      feedback := None;
      this.offline := offline;
      this.ownerId := ownerId;
      this.token := token;
      persisted := None;
    }

    /** Whether some bus has the selected id (`selectedBus` is not null). */
    predicate HasSelectedBus()
      reads this
    {
      selectedBusId.Some? && exists k :: 0 <= k < |buses| && buses[k].id == selectedBusId.value
    }

    /** Whether saving stays local: offline, or no owner id, or no token. */
    predicate Local()
      reads this
    {
      offline || !Present(ownerId) || !Present(token)
    }

    /** `updateLocalState`: the matrix cell is set and saved, and the selected
        bus shows the new price. */
    method UpdateLocalState(busId: string, amount: real, tag: PriceTag)
      modifies this
      ensures destinationPricing == SetPrice(old(destinationPricing), busId, selectedDestinationId, amount)
      ensures persisted == Some(destinationPricing)
      ensures buses == TagBuses(old(buses), busId, tag)
      ensures selectedBusId == old(selectedBusId) && selectedDestinationId == old(selectedDestinationId)
      ensures expectedPriceInput == old(expectedPriceInput) && note == old(note) && saving == old(saving)
      ensures feedback == old(feedback) && offline == old(offline) && ownerId == old(ownerId) && token == old(token)
    {
      destinationPricing := SetPrice(destinationPricing, busId, selectedDestinationId, amount);
      persisted := Some(destinationPricing);
      buses := TagBuses(buses, busId, tag);
    }

    /** `handleSave`. Nothing happens without a selected bus. An input that
        `parse` cannot read as a finite number (`None`), or that is not above
        zero, only sets an error. Otherwise the amount is committed as
        `Committed` says. */
    method HandleSave(parse: string -> Option<real>, fixed2: real -> string, now: string,
                      share: (string, string, real, string, string) -> bool)
      modifies this
      ensures selectedBusId == old(selectedBusId) && selectedDestinationId == old(selectedDestinationId)
      ensures expectedPriceInput == old(expectedPriceInput)
      ensures offline == old(offline) && ownerId == old(ownerId) && token == old(token)
      ensures !old(HasSelectedBus()) || !Present(old(selectedBusId)) ==>
        && buses == old(buses) && destinationPricing == old(destinationPricing) && persisted == old(persisted)
        && note == old(note) && saving == old(saving) && feedback == old(feedback)
      ensures old(HasSelectedBus()) && Present(old(selectedBusId))
              && (parse(old(expectedPriceInput)).None? || parse(old(expectedPriceInput)).value <= 0.0) ==>
        && buses == old(buses) && destinationPricing == old(destinationPricing) && persisted == old(persisted)
        && note == old(note) && saving == old(saving) && feedback == Some(Feedback(Failure, InvalidAmountMessage))
      ensures old(HasSelectedBus()) && Present(old(selectedBusId))
              && parse(old(expectedPriceInput)).Some? && parse(old(expectedPriceInput)).value > 0.0 ==>
        Committed(old(buses), old(destinationPricing), old(persisted), old(note), old(saving),
                  old(selectedBusId).value, parse(old(expectedPriceInput)).value, fixed2, now, share)
    {
      if !HasSelectedBus() || !Present(selectedBusId) {
        return;
      }
      var amount := parse(expectedPriceInput);
      if amount.None? || amount.value <= 0.0 {
        feedback := Some(Feedback(Failure, InvalidAmountMessage));
        return;
      }
      Commit(selectedBusId.value, amount.value, fixed2, now, share);
    }

    /** What committing `amount` for bus `busId` leaves behind, from the state
        before it. Offline, the price is saved locally and the note cleared.
        Online, `share` is sent the owner id, the bus id, the amount, the note
        payload and the token; only when it succeeds is the price saved and
        the note cleared, and on failure only the feedback changes; saving
        ends false. */
    ghost predicate Committed(buses0: seq<PricedBus>, matrix0: PricingMatrix, persisted0: Option<PricingMatrix>,
                              note0: string, saving0: bool, busId: string, amount: real,
                              fixed2: real -> string, now: string,
                              share: (string, string, real, string, string) -> bool)
      reads this
    {
      var tag := PriceTag(fixed2(amount), now);
      var routeName := RouteLabel(selectedDestinationId);
      && (Local() ==> SavedLocally(buses0, matrix0, saving0, busId, amount, tag, routeName))
      && (!Local() ==> SharedOnline(buses0, matrix0, persisted0, note0, busId, amount, tag, routeName, share))
    }

    /** The offline half of `Committed`. */
    ghost predicate SavedLocally(buses0: seq<PricedBus>, matrix0: PricingMatrix, saving0: bool,
                                 busId: string, amount: real, tag: PriceTag, routeName: string)
      reads this
    {
      var saved := SetPrice(matrix0, busId, selectedDestinationId, amount);
      && buses == TagBuses(buses0, busId, tag) && destinationPricing == saved && persisted == Some(saved)
      && note == "" && saving == saving0
      && feedback == Some(Feedback(Success, routeName + " pricing updated locally (offline mode)."))
    }

    /** The online half of `Committed`. */
    ghost predicate SharedOnline(buses0: seq<PricedBus>, matrix0: PricingMatrix, persisted0: Option<PricingMatrix>,
                                 note0: string, busId: string, amount: real, tag: PriceTag, routeName: string,
                                 share: (string, string, real, string, string) -> bool)
      reads this
      requires !Local()
    {
      var saved := SetPrice(matrix0, busId, selectedDestinationId, amount);
      var shared := share(ownerId.value, busId, amount, NotePayload(routeName, note0), token.value);
      && !saving
      && (shared ==> buses == TagBuses(buses0, busId, tag) && destinationPricing == saved && persisted == Some(saved)
                     && note == "" && feedback == Some(Feedback(Success, routeName + " pricing shared with admin.")))
      && (!shared ==> buses == buses0 && destinationPricing == matrix0 && persisted == persisted0 && note == note0
                      && feedback == Some(Feedback(Failure, SyncFailedMessage)))
    }

    /** Commits a valid amount, offline or online. */
    method Commit(busId: string, amount: real, fixed2: real -> string, now: string,
                  share: (string, string, real, string, string) -> bool)
      modifies this
      ensures selectedBusId == old(selectedBusId) && selectedDestinationId == old(selectedDestinationId)
      ensures expectedPriceInput == old(expectedPriceInput)
      ensures offline == old(offline) && ownerId == old(ownerId) && token == old(token)
      ensures Committed(old(buses), old(destinationPricing), old(persisted), old(note), old(saving),
                        busId, amount, fixed2, now, share)
    {
      var routeName := RouteLabel(selectedDestinationId);
      var tag := PriceTag(fixed2(amount), now);
      if Local() {
        SaveLocally(busId, amount, tag, routeName);
      } else {
        ShareAndCommit(busId, amount, tag, routeName, share);
      }
    }

    /** The offline path: the price is saved locally and the note cleared. */
    method SaveLocally(busId: string, amount: real, tag: PriceTag, routeName: string)
      modifies this
      ensures selectedBusId == old(selectedBusId) && selectedDestinationId == old(selectedDestinationId)
      ensures expectedPriceInput == old(expectedPriceInput)
      ensures offline == old(offline) && ownerId == old(ownerId) && token == old(token)
      ensures SavedLocally(old(buses), old(destinationPricing), old(saving), busId, amount, tag, routeName)
    {
      UpdateLocalState(busId, amount, tag);
      feedback := Some(Feedback(Success, routeName + " pricing updated locally (offline mode)."));
      note := "";
    }

    /** The online path: `share` first, and the local save only after it
        succeeds. */
    method ShareAndCommit(busId: string, amount: real, tag: PriceTag, routeName: string,
                          share: (string, string, real, string, string) -> bool)
      requires !Local()
      modifies this
      ensures selectedBusId == old(selectedBusId) && selectedDestinationId == old(selectedDestinationId)
      ensures expectedPriceInput == old(expectedPriceInput)
      ensures offline == old(offline) && ownerId == old(ownerId) && token == old(token)
      ensures SharedOnline(old(buses), old(destinationPricing), old(persisted), old(note), busId, amount, tag, routeName, share)
    {
      var shared := share(ownerId.value, busId, amount, NotePayload(routeName, note), token.value);
      saving := true;
      if shared {
        SaveShared(busId, amount, tag, routeName);
      } else {
        feedback := Some(Feedback(Failure, SyncFailedMessage));
      }
      saving := false;
    }

    /** After a successful share: the price is saved locally, the note
        cleared and the success shown. */
    method SaveShared(busId: string, amount: real, tag: PriceTag, routeName: string)
      modifies this
      ensures destinationPricing == SetPrice(old(destinationPricing), busId, selectedDestinationId, amount)
      ensures persisted == Some(destinationPricing) && buses == TagBuses(old(buses), busId, tag)
      ensures note == "" && feedback == Some(Feedback(Success, routeName + " pricing shared with admin."))
      ensures selectedBusId == old(selectedBusId) && selectedDestinationId == old(selectedDestinationId)
      ensures expectedPriceInput == old(expectedPriceInput) && saving == old(saving)
      ensures offline == old(offline) && ownerId == old(ownerId) && token == old(token)
    {
      UpdateLocalState(busId, amount, tag);
      feedback := Some(Feedback(Success, routeName + " pricing shared with admin."));
      note := "";
    }
  }
}
