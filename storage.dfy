/**
 * `createStorageService` (app/services/storageService.js): get/set/remove
 * over the raw storage object when it offers getItem/setItem/removeItem,
 * and over an in-memory map otherwise or when the raw call throws.
 * Whether a raw call throws is a parameter of each operation.
 */
module Storage {
  import opened Wrappers
  import opened Json

  /**
   * What the imported raw storage offers. The module the service imports
   * (modules/storage.js) defines only save/load/remove, so it is `NoItemApi`.
   */
  datatype RawStorage = NoItemApi | ItemApi

  /** What safeJsonGet does next: return the fallback, or JSON.parse the text. */
  datatype JsonRead = UseFallback(fallback: Json) | ParseText(text: string)

  class StorageService {
    const raw: RawStorage
    /** The contents of the raw storage, when it has the item API. */
    var rawData: map<string, string>
    var memory: map<string, string>

    constructor (raw: RawStorage, rawData: map<string, string>)
      ensures this.raw == raw && this.rawData == rawData && memory == map[]
    {
      this.raw := raw;
      this.rawData := rawData;
      memory := map[];
    }

    /** The raw API answers this call. */
    predicate UsesRaw(rawThrows: bool)
      reads this
    {
      raw == ItemApi && !rawThrows
    }

    /**
     * safeGet: the raw value, where a null (absent) one maps to the fallback;
     * the memory map when the raw API is missing or throws.
     */
    method SafeGet(key: string, fallback: Option<string>, rawThrows: bool) returns (r: Option<string>)
      ensures UsesRaw(rawThrows) ==> r == if key in rawData then Some(rawData[key]) else fallback
      ensures !UsesRaw(rawThrows) ==> r == if key in memory then Some(memory[key]) else fallback
    {
      if UsesRaw(rawThrows) {
        r := if key in rawData then Some(rawData[key]) else fallback;
      } else {
        r := if key in memory then Some(memory[key]) else fallback;
      }
    }

    /** safeSet: the raw API stores the value, otherwise the memory map does. */
    method SafeSet(key: string, value: string, rawThrows: bool)
      modifies this`rawData, this`memory
      ensures UsesRaw(rawThrows) ==> rawData == old(rawData)[key := value] && memory == old(memory)
      ensures !UsesRaw(rawThrows) ==> memory == old(memory)[key := value] && rawData == old(rawData)
    {
      if UsesRaw(rawThrows) {
        rawData := rawData[key := value];
      } else {
        memory := memory[key := value];
      }
    }

    /** safeRemove: the key disappears from the store the call reaches; other keys stay. */
    method SafeRemove(key: string, rawThrows: bool)
      modifies this`rawData, this`memory
      ensures UsesRaw(rawThrows) ==> rawData == old(rawData) - {key} && memory == old(memory)
      ensures !UsesRaw(rawThrows) ==> memory == old(memory) - {key} && rawData == old(rawData)
    {
      if UsesRaw(rawThrows) {
        rawData := rawData - {key};
      } else {
        memory := memory - {key};
      }
    }

    /** safeJsonGet: an absent key gives the fallback without parsing anything. */
    method SafeJsonGet(key: string, fallback: Json, rawThrows: bool) returns (r: JsonRead)
      ensures UsesRaw(rawThrows) ==> r == if key in rawData then ParseText(rawData[key]) else UseFallback(fallback)
      ensures !UsesRaw(rawThrows) ==> r == if key in memory then ParseText(memory[key]) else UseFallback(fallback)
    {
      var text := SafeGet(key, None, rawThrows);
      r := if text.Some? then ParseText(text.value) else UseFallback(fallback);
    }
  }

  /**
   * With the imported raw storage, a value set is read back, a removed key
   * reads as the fallback, and other keys are untouched.
   */
  method MemoryRoundTrip(key: string, value: string, other: string, fallback: Option<string>) returns (got: Option<string>, gone: Option<string>)
    requires other != key
    ensures got == Some(value)
    ensures gone == fallback
  {
    var s := new StorageService(NoItemApi, map[]);
    s.SafeSet(other, "kept", true);
    s.SafeSet(key, value, false);
    got := s.SafeGet(key, fallback, false);
    s.SafeRemove(key, false);
    gone := s.SafeGet(key, fallback, false);
    var still := s.SafeGet(other, fallback, false);
    assert still == Some("kept");
  }
}
