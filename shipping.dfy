/**
 * Shipping locations: the storefront's resolver (a built-in table replaced by
 * the rows of the shipping_locations table when a fetch returns some) and the
 * administrative variant that lists, updates, inserts and deletes rows.
 *
 * Every call to the backend is an input value: a fetch outcome or a write
 * outcome. Each handler is atomic except for its one `await`, which splits it
 * into a Start/Finish pair so that the `loading` flag in between is visible.
 */
module Shipping {
  import opened Wrappers

  /** One row of the shipping_locations table. Fees are exact amounts in pesos. */
  datatype Location = Location(id: string, name: string, fee: real, isActive: bool, orderIndex: int)

  /** The built-in table: offered before any fetch completes and whenever a fetch yields nothing usable. */
  const DefaultLocations: seq<Location> := [
    Location("LBC_METRO", "LBC - Metro Manila", 150.0, true, 1),
    Location("LBC_PROVINCIAL", "LBC - Provincial", 200.0, true, 2),
    Location("LALAMOVE", "Lalamove (Metro Manila / Davao)", 0.0, true, 3)
  ]

  /** What one query of the shipping_locations table produced. */
  datatype FetchOutcome =
    | QueryError(message: string)        // the client answered with an error object
    | Rows(data: Option<seq<Location>>)  // the client answered with data, possibly null
    | Threw(errorMessage: Option<string>) // the await threw; `errorMessage` when the value was an Error

  /** The outcome carried a non-empty array of rows. */
  predicate ReturnedRows(outcome: FetchOutcome) {
    outcome.Rows? && outcome.data.Some? && |outcome.data.value| > 0
  }

  /**
   * The list the storefront offers after a fetch: the rows exactly as returned
   * when there are some, the built-in table after a query error, a null or
   * empty answer, or an exception.
   */
  function OfferedAfter(outcome: FetchOutcome): (offered: seq<Location>)
    ensures |offered| > 0
    ensures ReturnedRows(outcome) ==> offered == outcome.data.value
    ensures !ReturnedRows(outcome) ==> offered == DefaultLocations
  {
    match outcome
    case Rows(Some(rows)) => if |rows| > 0 then rows else DefaultLocations
    case _ => DefaultLocations
  }

  /** Index of the first entry whose id is `id` (JavaScript's `Array.prototype.find`). */
  function FindIndex(ls: seq<Location>, id: string): (r: Option<nat>)
    ensures r.Some? ==> r.value < |ls| && ls[r.value].id == id
    ensures r.Some? ==> forall j :: 0 <= j < r.value ==> ls[j].id != id
    ensures r.None? ==> forall j :: 0 <= j < |ls| ==> ls[j].id != id
  {
    if |ls| == 0 then None
    else if ls[0].id == id then Some(0)
    else match FindIndex(ls[1..], id)
      case Some(k) => Some(k + 1)
      case None => None
  }

  /** The fee of the first entry with id `id`; an unknown id costs nothing. */
  function ShippingFee(ls: seq<Location>, id: string): (fee: real)
    ensures (forall j :: 0 <= j < |ls| ==> ls[j].id != id) ==> fee == 0.0
    ensures forall i :: 0 <= i < |ls| && ls[i].id == id && (forall j :: 0 <= j < i ==> ls[j].id != id) ==>
              fee == ls[i].fee
  {
    match FindIndex(ls, id)
    case Some(i) => ls[i].fee
    case None => 0.0
  }

  /** The built-in table resolves its three ids to their fees and anything else to 0. */
  lemma DefaultFees(id: string)
    ensures ShippingFee(DefaultLocations, "LBC_METRO") == 150.0
    ensures ShippingFee(DefaultLocations, "LBC_PROVINCIAL") == 200.0
    ensures ShippingFee(DefaultLocations, "LALAMOVE") == 0.0
    ensures id != "LBC_METRO" && id != "LBC_PROVINCIAL" && id != "LALAMOVE" ==>
              ShippingFee(DefaultLocations, id) == 0.0
  {
    assert DefaultLocations[0].id == "LBC_METRO";
    assert DefaultLocations[1].id == "LBC_PROVINCIAL";
    assert DefaultLocations[2].id == "LALAMOVE";
    assert "LBC_METRO" != "LBC_PROVINCIAL";
    assert "LBC_METRO" != "LALAMOVE" && "LBC_PROVINCIAL" != "LALAMOVE";
  }

  /**
   * The storefront resolver. Starts on the built-in table with `loading` set;
   * `error` is declared by the hook but never assigned.
   */
  class ShippingResolver {
    var locations: seq<Location>
    var loading: bool
    var error: Option<string>

    /** Something is always offered, and no error is ever reported. */
    ghost predicate Valid()
      reads this
    {
      |locations| > 0 && error == None
    }

    constructor ()
      ensures Valid()
      ensures locations == DefaultLocations && loading && error == None
    {
      locations := DefaultLocations;
      loading := true;
      error := None;
    }

    /** Everything up to the `await` of the query. */
    method StartFetch()
      requires Valid()
      modifies this`loading
      ensures Valid() && loading
    {
      loading := true;
    }

    /** Everything after the `await`: the branches on the outcome, then the `finally`. */
    method FinishFetch(outcome: FetchOutcome)
      requires Valid()
      modifies this`locations, this`loading
      ensures Valid()
      ensures locations == OfferedAfter(outcome) && !loading
    {
      match outcome {
        case QueryError(_) =>
          locations := DefaultLocations;
        case Rows(data) =>
          if data.Some? && |data.value| > 0 {
            locations := data.value;
          } else {
            locations := DefaultLocations;
          }
        case Threw(_) =>
          locations := DefaultLocations;
      }
      loading := false;
    }

    /** `fetchLocations` (also exposed as `refetch`) run to completion. */
    method FetchLocations(outcome: FetchOutcome)
      requires Valid()
      modifies this`locations, this`loading
      ensures Valid()
      ensures locations == OfferedAfter(outcome) && !loading && error == None
    {
      StartFetch();
      FinishFetch(outcome);
    }

    /** `getShippingFee`: a read of the current list. */
    function GetShippingFee(id: string): (fee: real)
      reads this
      ensures (forall j :: 0 <= j < |locations| ==> locations[j].id != id) ==> fee == 0.0
      ensures forall i :: 0 <= i < |locations| && locations[i].id == id
                            && (forall j :: 0 <= j < i ==> locations[j].id != id) ==>
                fee == locations[i].fee
    {
      ShippingFee(locations, id)
    }
  }

  const TableNotFound: string := "Table not found. Please run the migration."
  const UnknownError: string := "Unknown error"

  /** The administrative list after a fetch of all rows, active or not. */
  function AdminListAfter(previous: seq<Location>, outcome: FetchOutcome): (ls: seq<Location>)
    ensures outcome.QueryError? ==> ls == []
    ensures outcome.Rows? && outcome.data.Some? ==> ls == outcome.data.value
    ensures outcome.Rows? && outcome.data.None? ==> ls == []
    ensures outcome.Threw? ==> ls == previous
  {
    match outcome
    case QueryError(_) => []
    case Rows(data) => data.GetOr([])
    case Threw(_) => previous
  }

  /** The administrative error message after a fetch of all rows. */
  function AdminErrorAfter(outcome: FetchOutcome): (error: Option<string>)
    ensures outcome.QueryError? ==> error == Some(TableNotFound)
    ensures outcome.Rows? ==> error == None
    ensures outcome.Threw? && outcome.errorMessage.Some? ==> error == outcome.errorMessage
    ensures outcome.Threw? && outcome.errorMessage.None? ==> error == Some(UnknownError)
  {
    match outcome
    case QueryError(_) => Some(TableNotFound)
    case Rows(_) => None
    case Threw(errorMessage) => Some(errorMessage.GetOr(UnknownError))
  }

  /** A fields-to-change record (`Partial<ShippingLocation>`), passed to the backend as given. */
  datatype LocationPatch = LocationPatch(
    id: Option<string>, name: Option<string>, fee: Option<real>,
    isActive: Option<bool>, orderIndex: Option<int>)

  /** The argument of `addLocation`: a location whose order index may be left out. */
  datatype NewLocation = NewLocation(id: string, name: string, fee: real, isActive: bool, orderIndex: Option<int>)

  /** The write the administrative hook asks the backend for. */
  datatype WriteRequest =
    | UpdateRow(id: string, patch: LocationPatch)
    | InsertRow(row: Location)
    | DeleteRow(id: string)

  /** The backend's answer to a write: success, or an error the hook rethrows. */
  datatype WriteOutcome = Written | WriteFailed(message: string)

  /**
   * The order index an inserted row gets: the requested one when it is truthy
   * (present and non-zero), otherwise one past the current list length.
   */
  function InsertedOrderIndex(requested: Option<int>, count: nat): (k: int)
    ensures k != 0
    ensures requested.Some? && requested.value != 0 ==> k == requested.value
    ensures requested.None? || requested == Some(0) ==> k == count + 1
  {
    if requested.Some? && requested.value != 0 then requested.value else count + 1
  }

  /** The administrative hook: starts empty, with `loading` set and no error. */
  class LocationsAdmin {
    var locations: seq<Location>
    var loading: bool
    var error: Option<string>

    constructor ()
      ensures locations == [] && loading && error == None
    {
      locations := [];
      loading := true;
      error := None;
    }

    /** Everything up to the `await` of the query. */
    method StartFetch()
      modifies this`loading
      ensures loading
    {
      loading := true;
    }

    /** Everything after the `await` of `fetchAllLocations`. */
    method FinishFetch(outcome: FetchOutcome)
      modifies this`locations, this`error, this`loading
      ensures locations == AdminListAfter(old(locations), outcome)
      ensures error == AdminErrorAfter(outcome) && !loading
    {
      match outcome {
        case QueryError(_) =>
          locations := [];
          error := Some(TableNotFound);
        case Rows(data) =>
          locations := if data.Some? then data.value else [];
          error := None;
        case Threw(errorMessage) =>
          error := Some(if errorMessage.Some? then errorMessage.value else UnknownError);
      }
      loading := false;
    }

    /** `fetchAllLocations` (also exposed as `refetch`) run to completion. */
    method FetchAllLocations(outcome: FetchOutcome)
      modifies this`locations, this`error, this`loading
      ensures locations == AdminListAfter(old(locations), outcome)
      ensures error == AdminErrorAfter(outcome) && !loading
    {
      StartFetch();
      FinishFetch(outcome);
    }

    /**
     * Sends `request`; a failed write is rethrown (`raised`) before any refetch,
     * a successful one is followed by a full refetch with outcome `refetch`.
     */
    method WriteThenRefetch(request: WriteRequest, written: WriteOutcome, refetch: FetchOutcome)
      returns (raised: Option<string>)
      modifies this`locations, this`error, this`loading
      ensures written.WriteFailed? ==> raised == Some(written.message)
      ensures written.WriteFailed? ==>
                locations == old(locations) && error == old(error) && loading == old(loading)
      ensures written.Written? ==> raised == None
      ensures written.Written? ==>
                locations == AdminListAfter(old(locations), refetch) && error == AdminErrorAfter(refetch) && !loading
    {
      if written.WriteFailed? {
        raised := Some(written.message);
        return;
      }
      FetchAllLocations(refetch);
      raised := None;
    }

    /** `updateLocation(id, updates)`. */
    method UpdateLocation(id: string, updates: LocationPatch, written: WriteOutcome, refetch: FetchOutcome)
      returns (request: WriteRequest, raised: Option<string>)
      modifies this`locations, this`error, this`loading
      ensures request == UpdateRow(id, updates)
      ensures written.WriteFailed? ==> raised == Some(written.message)
      ensures written.WriteFailed? ==>
                locations == old(locations) && error == old(error) && loading == old(loading)
      ensures written.Written? ==> raised == None
      ensures written.Written? ==>
                locations == AdminListAfter(old(locations), refetch) && error == AdminErrorAfter(refetch) && !loading
    {
      request := UpdateRow(id, updates);
      raised := WriteThenRefetch(request, written, refetch);
    }

    /** `addLocation(location)`: the order index defaults to the list length plus one. */
    method AddLocation(location: NewLocation, written: WriteOutcome, refetch: FetchOutcome)
      returns (request: WriteRequest, raised: Option<string>)
      modifies this`locations, this`error, this`loading
      ensures request == InsertRow(Location(location.id, location.name, location.fee, location.isActive,
                                            InsertedOrderIndex(location.orderIndex, |old(locations)|)))
      ensures written.WriteFailed? ==> raised == Some(written.message)
      ensures written.WriteFailed? ==>
                locations == old(locations) && error == old(error) && loading == old(loading)
      ensures written.Written? ==> raised == None
      ensures written.Written? ==>
                locations == AdminListAfter(old(locations), refetch) && error == AdminErrorAfter(refetch) && !loading
    {
      var orderIndex := if location.orderIndex.Some? && location.orderIndex.value != 0
                        then location.orderIndex.value else |locations| + 1;
      request := InsertRow(Location(location.id, location.name, location.fee, location.isActive, orderIndex));
      raised := WriteThenRefetch(request, written, refetch);
    }

    /** `deleteLocation(id)`. */
    method DeleteLocation(id: string, written: WriteOutcome, refetch: FetchOutcome)
      returns (request: WriteRequest, raised: Option<string>)
      modifies this`locations, this`error, this`loading
      ensures request == DeleteRow(id)
      ensures written.WriteFailed? ==> raised == Some(written.message)
      ensures written.WriteFailed? ==>
                locations == old(locations) && error == old(error) && loading == old(loading)
      ensures written.Written? ==> raised == None
      ensures written.Written? ==>
                locations == AdminListAfter(old(locations), refetch) && error == AdminErrorAfter(refetch) && !loading
    {
      request := DeleteRow(id);
      raised := WriteThenRefetch(request, written, refetch);
    }
  }

  /** After an administrative fetch the error is cleared exactly when the query answered with data. */
  lemma AdminErrorClearedIffRows(outcome: FetchOutcome)
    ensures AdminErrorAfter(outcome) == None <==> outcome.Rows?
  {
  }

  /** Only an exception keeps the previous administrative list; any answer from the query replaces it. */
  lemma AdminListFromAnswer(previous: seq<Location>, other: seq<Location>, outcome: FetchOutcome)
    ensures outcome.Threw? ==> AdminListAfter(previous, outcome) == previous
    ensures !outcome.Threw? ==> AdminListAfter(previous, outcome) == AdminListAfter(other, outcome)
    ensures outcome.QueryError? ==> AdminListAfter(previous, outcome) == []
  {
  }
}
