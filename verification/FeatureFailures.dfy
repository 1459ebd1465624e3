/** The plan-failure ledger of packages/crew/src/loops/featureBacklogFailures.ts, in its two
    implementations: an in-process map, and a JSON file re-read on every call. */
module FeatureFailures {
  import opened Prelude

  type Counts = map<string, nat>

  function CountOf(counts: Counts, id: string): nat {
    if id in counts then counts[id] else 0
  }

  /** The ledger after one more failed plan. */
  function Recorded(counts: Counts, id: string): Counts {
    counts[id := CountOf(counts, id) + 1]
  }

  function Cleared(counts: Counts, id: string): Counts {
    counts - {id}
  }

  class MemoryFeatureFailureStore {
    var counts: Counts

    constructor ()
      ensures counts == map[]
    {
      counts := map[];
    }

    function Failures(id: string): nat
      reads this
    {
      CountOf(counts, id)
    }

    method RecordFailure(id: string) returns (next: nat)
      modifies this
      ensures counts == Recorded(old(counts), id)
      ensures next == Failures(id) == old(Failures(id)) + 1
    {
      next := Failures(id) + 1;
      counts := counts[id := next];
    }

    method Clear(id: string)
      modifies this
      ensures counts == Cleared(old(counts), id) && Failures(id) == 0
    {
      counts := counts - {id};
    }
  }

  datatype Entry = Entry(failures: nat, lastError: string, lastFailedAt: string)

  /** What the ledger file holds; anything that does not parse reads as empty. */
  datatype LedgerFile = Missing | Corrupt | Stored(features: map<string, Entry>)

  function LoadLedger(file: LedgerFile): map<string, Entry> {
    if file.Stored? then file.features else map[]
  }

  function CountsOf(file: LedgerFile): Counts {
    map id | id in LoadLedger(file) :: LoadLedger(file)[id].failures
  }

  /** The ledger keeps the first 500 characters of an error. */
  function Shown(error: string): string {
    if |error| <= 500 then error else error[..500]
  }

  /** `saveFails` says whether the atomic rewrite of the file throws. */
  class FileFeatureFailureStore {
    var file: LedgerFile

    function Failures(id: string): nat
      reads this
    {
      CountOf(CountsOf(file), id)
    }

    method RecordFailure(id: string, error: string, at: string, saveFails: bool) returns (result: Option<nat>)
      modifies this
      ensures saveFails ==> result == None && file == old(file)
      ensures !saveFails ==> CountsOf(file) == Recorded(CountsOf(old(file)), id) && result == Some(Failures(id))
      ensures !saveFails ==>
        && file.Stored? && id in file.features && file.features - {id} == LoadLedger(old(file)) - {id}
        && file.features[id].failures == old(Failures(id)) + 1 && file.features[id].lastFailedAt == at
        && file.features[id].lastError <= error && (|file.features[id].lastError| == 500 || file.features[id].lastError == error)
        && |file.features[id].lastError| <= 500
      ensures !saveFails && !old(file).Stored? ==> result == Some(1) && file.features.Keys == {id}
    {
      var features := LoadLedger(file);
      var failures := (if id in features then features[id].failures else 0) + 1;
      features := features[id := Entry(failures, Shown(error), at)];
      if saveFails { return None; }
      file := Stored(features);
      result := Some(failures);
    }

    method Clear(id: string, saveFails: bool) returns (ok: bool)
      modifies this
      ensures ok ==> CountsOf(file) == Cleared(CountsOf(old(file)), id) && LoadLedger(file) == LoadLedger(old(file)) - {id}
      ensures !ok <==> saveFails && id in CountsOf(old(file))
      ensures !ok ==> file == old(file)
    {
      var features := LoadLedger(file);
      if id !in features {
        assert Cleared(CountsOf(file), id) == CountsOf(file);
        assert features - {id} == features;
        return true;
      }
      if saveFails { return false; }
      file := Stored(features - {id});
      ok := true;
    }
  }

  /** The file ledger refines the in-process one: from equal counts, the same operations whose
      writes succeed give equal counts and equal answers. */
  method StoresAgree(id: string, error: string, at: string, clear: bool, mem: MemoryFeatureFailureStore, disk: FileFeatureFailureStore)
    requires mem.counts == CountsOf(disk.file)
    modifies mem, disk
    ensures mem.counts == CountsOf(disk.file)
    ensures mem.counts == if clear then Cleared(old(mem.counts), id) else Recorded(old(mem.counts), id)
  {
    if clear {
      mem.Clear(id);
      var _ := disk.Clear(id, false);
    } else {
      var a := mem.RecordFailure(id);
      var b := disk.RecordFailure(id, error, at, false);
      assert b == Some(a);
    }
  }
}
