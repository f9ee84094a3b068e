/**
 * The sort preference (`DataStoreRepo.kt`): one string slot, `sort_state`,
 * written with a priority's name and read back with "NONE" as the default.
 */
module DataStore {
  import opened Wrappers
  import opened Priorities

  /** The failures the underlying preference file can raise on a read. */
  datatype ReadFault = IOException | OtherException(message: string)

  /** The slot holds nothing, or something `WriteSortState` could have put there. */
  predicate HoldsPriorityName(slot: Option<string>) {
    slot.None? || exists p: Priority :: slot.value == Name(p)
  }

  /**
   * One emission of the `readSortState` flow, given the slot's contents and
   * the failure (if any) the file reports: an IOException is replaced by
   * empty preferences, any other exception is rethrown (`Err`), and a
   * missing key reads as the name of NONE.
   */
  function ReadSortState(slot: Option<string>, fault: Option<ReadFault>): (r: Result<string, ReadFault>)
    ensures fault == Some(IOException) ==> r == Ok(Name(NONE))
    ensures fault.Some? && fault.value.OtherException? ==> r == Err(fault.value)
    ensures fault.None? ==> r == Ok(slot.GetOr(Name(NONE)))
    ensures r.Err? ==> fault.Some? && fault.value.OtherException?
  {
    if fault.Some? && fault.value.OtherException? then Err(fault.value)
    else
      var prefs := if fault.Some? then None else slot;
      Ok(prefs.GetOr(Name(NONE)))
  }

  /**
   * Whenever a read succeeds on a slot that only `WriteSortState` ever
   * wrote, `Priority.valueOf` accepts what it yields.
   */
  lemma ReadYieldsParsableName(slot: Option<string>, fault: Option<ReadFault>)
    requires HoldsPriorityName(slot)
    ensures ReadSortState(slot, fault).Ok? ==> ValueOf(ReadSortState(slot, fault).value).Some?
  {
    var r := ReadSortState(slot, fault);
    if r.Ok? {
      if fault.None? && slot.Some? {
        var p :| slot.value == Name(p);
        ValueOfName(p);
      } else {
        ValueOfName(NONE);
      }
    }
  }

  /** Write `p`, then read without failure: the read yields `p`'s name, which parses back to `p`. */
  lemma WriteThenReadRoundTrip(p: Priority)
    ensures ReadSortState(Some(Name(p)), None) == Ok(Name(p))
    ensures ValueOf(ReadSortState(Some(Name(p)), None).value) == Some(p)
  {
    ValueOfName(p);
  }

  /** The preference store behind `DataStoreRepo`, reduced to its one slot. */
  class DataStoreRepo {
    /** The `sort_state` key's value, or None when the key is absent. */
    var slot: Option<string>

    /** A repository over a preference file whose `sort_state` holds `stored`. */
    constructor (stored: Option<string>)
      ensures slot == stored
    {
      slot := stored;
    }

    /** `writeSortState`: overwrite the slot with the priority's name; the last write wins. */
    method WriteSortState(priority: Priority)
      modifies this
      ensures slot == Some(Name(priority))
      ensures HoldsPriorityName(slot)
    {
      slot := Some(Name(priority));
    }
  }
}
