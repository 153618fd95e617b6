/**
 * The non-volatile key/value store (NVS) the firmware persists its schedule in,
 * reduced to the calls the firmware makes on one namespace: open, typed get,
 * typed set, commit, close. Which calls fail is fixed when the store is set up,
 * so every operation is deterministic. Whether a set reaches flash before the
 * commit is left open by the NVS interface; a store is either write-through
 * (each successful set is durable at once) or transactional (sets become
 * durable only at a successful commit, and close drops the others).
 */
module Nvs {
  import opened Machine

  /** ESP_OK, ESP_ERR_NVS_NOT_FOUND, ESP_ERR_NVS_INVALID_HANDLE, and any other error. */
  datatype Status = Ok | NotFound | InvalidHandle | Failed

  /** An entry remembers the width it was written with; a get of another width does not find it. */
  datatype Item = U16(u16Value: u16) | U64(u64Value: u64)

  /** The operations of this store that fail: opening, reading or writing given keys, committing. */
  datatype Faults = Faults(openFails: bool, readFails: set<string>, writeFails: set<string>, commitFails: bool)

  /** A result code together with the value written to the caller's out-parameter. */
  datatype Reply<T> = Reply(status: Status, value: T)

  /** What `nvs_get_u16` reports for `key` on an open handle. */
  function ReadU16(kv: map<string, Item>, faults: Faults, key: string): Reply<u16>
  {
    if key in faults.readFails then Reply(Failed, 0)
    else if key in kv && kv[key].U16? then Reply(Ok, kv[key].u16Value)
    else Reply(NotFound, 0)
  }

  /** What `nvs_get_u64` reports for `key` on an open handle. */
  function ReadU64(kv: map<string, Item>, faults: Faults, key: string): Reply<u64>
  {
    if key in faults.readFails then Reply(Failed, 0)
    else if key in kv && kv[key].U64? then Reply(Ok, kv[key].u64Value)
    else Reply(NotFound, 0)
  }

  /** One typed set of a write sequence. */
  datatype Write = Write(key: string, item: Item)

  /** `kv` after the writes, in order. */
  function Applied(kv: map<string, Item>, writes: seq<Write>): map<string, Item>
  {
    if writes == [] then kv
    else
      var last := writes[|writes| - 1];
      Applied(kv, writes[..|writes| - 1])[last.key := last.item]
  }

  /** How many of the writes, from the first, succeed before one fails. */
  function Succeeding(faults: Faults, writes: seq<Write>): (n: nat)
    ensures n <= |writes|
    ensures forall i :: 0 <= i < n ==> writes[i].key !in faults.writeFails
    ensures n < |writes| ==> writes[n].key in faults.writeFails
  {
    if writes == [] || writes[0].key in faults.writeFails then 0
    else 1 + Succeeding(faults, writes[1..])
  }

  /**
   * What survives a reboot after an open, the writes up to the first failure
   * (a failure closes the handle, so every later call fails too), a commit and a
   * close.
   */
  function Durable(kv: map<string, Item>, faults: Faults, writeThrough: bool, writes: seq<Write>): map<string, Item>
  {
    if faults.openFails then kv
    else if writeThrough then Applied(kv, writes[..Succeeding(faults, writes)])
    else if Succeeding(faults, writes) == |writes| && !faults.commitFails then Applied(kv, writes)
    else kv
  }

  /**
   * Either way the store keeps a prefix of the writes that succeeded: a
   * transactional store all of them or none, a write-through store every
   * successful one even when a later write or the commit fails.
   */
  lemma DurableKeepsAPrefix(kv: map<string, Item>, faults: Faults, writeThrough: bool, writes: seq<Write>)
    ensures var n := Succeeding(faults, writes);
      && (Durable(kv, faults, writeThrough, writes) == kv
          || Durable(kv, faults, writeThrough, writes) == Applied(kv, writes[..n]))
      && (!writeThrough ==> Durable(kv, faults, writeThrough, writes) == kv
                            || (n == |writes| && Durable(kv, faults, writeThrough, writes) == Applied(kv, writes)))
      && (writeThrough && !faults.openFails ==> Durable(kv, faults, writeThrough, writes) == Applied(kv, writes[..n]))
      && (!faults.openFails && n == |writes| && !faults.commitFails ==>
            Durable(kv, faults, writeThrough, writes) == Applied(kv, writes))
  {
    assert writes[..|writes|] == writes;
  }

  /**
   * The store seen through one handle. `committed` is what survives a reboot,
   * `staged` what was set through the open handle and not yet committed (always
   * empty on a write-through store).
   */
  class Store {
    var committed: map<string, Item>
    var staged: map<string, Item>
    var isOpen: bool
    const faults: Faults
    const writeThrough: bool

    constructor (contents: map<string, Item>, faults: Faults, writeThrough: bool)
      ensures committed == contents && staged == map[] && !isOpen
      ensures this.faults == faults && this.writeThrough == writeThrough
    {
      committed := contents;
      staged := map[];
      isOpen := false;
      this.faults := faults;
      this.writeThrough := writeThrough;
    }

    /** The entries a get on the open handle sees. */
    function Visible(): map<string, Item>
      reads this
    {
      committed + staged
    }

    /** `nvs_open`: on failure the caller's handle is left invalid. */
    method Open() returns (st: Status)
      modifies this
      ensures st == (if faults.openFails then Failed else Ok)
      ensures isOpen == (st == Ok)
      ensures committed == old(committed) && staged == map[]
    {
      st := if faults.openFails then Failed else Ok;
      isOpen := st == Ok;
      staged := map[];
    }

    method GetU16(key: string) returns (r: Reply<u16>)
      ensures r == if isOpen then ReadU16(Visible(), faults, key) else Reply(InvalidHandle, 0)
    {
      r := if isOpen then ReadU16(Visible(), faults, key) else Reply(InvalidHandle, 0);
    }

    method GetU64(key: string) returns (r: Reply<u64>)
      ensures r == if isOpen then ReadU64(Visible(), faults, key) else Reply(InvalidHandle, 0)
    {
      r := if isOpen then ReadU64(Visible(), faults, key) else Reply(InvalidHandle, 0);
    }

    /** `nvs_set_u16` / `nvs_set_u64`: a write replaces an entry of either width. */
    method Set(key: string, item: Item) returns (st: Status)
      modifies this
      ensures st == (if !old(isOpen) then InvalidHandle else if key in faults.writeFails then Failed else Ok)
      ensures staged == (if st == Ok && !writeThrough then old(staged)[key := item] else old(staged))
      ensures committed == (if st == Ok && writeThrough then old(committed)[key := item] else old(committed))
      ensures isOpen == old(isOpen)
    {
      st := if !isOpen then InvalidHandle else if key in faults.writeFails then Failed else Ok;
      if st == Ok {
        if writeThrough {
          committed := committed[key := item];
        } else {
          staged := staged[key := item];
        }
      }
    }

    /** `nvs_commit`: the staged writes become durable together. */
    method Commit() returns (st: Status)
      modifies this
      ensures st == (if !old(isOpen) then InvalidHandle else if faults.commitFails then Failed else Ok)
      ensures committed == (if st == Ok then old(committed) + old(staged) else old(committed))
      ensures staged == (if st == Ok then map[] else old(staged))
      ensures isOpen == old(isOpen)
    {
      st := if !isOpen then InvalidHandle else if faults.commitFails then Failed else Ok;
      if st == Ok {
        committed := committed + staged;
        staged := map[];
      }
    }

    /** `nvs_close`: the handle becomes invalid and uncommitted writes are dropped. */
    method Close()
      modifies this
      ensures !isOpen && staged == map[] && committed == old(committed)
    {
      isOpen := false;
      staged := map[];
    }
  }
}
