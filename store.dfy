/** `load_cache` / `save_cache`: the JSON file is an abstract store that may be
    missing, may hold something that does not parse, or holds a snapshot. */
module Store {
  import opened Snapshots

  datatype FileState<T> = Absent | Corrupt | Holds(contents: T)

  class Cache<R> {
    var file: FileState<Snapshot<R>>

    constructor (initial: FileState<Snapshot<R>>)
      ensures file == initial
    {
      file := initial;
    }

    /** What `load_cache()` returns in the current state: `{}` unless the file holds a snapshot. */
    ghost function Loaded(): (d: Snapshot<R>)
      reads this
    {
      if file.Holds? then file.contents else []
    }

    /** `load_cache()`: never fails; a missing or unparsable file reads as `{}`. */
    method Load() returns (d: Snapshot<R>)
      ensures file.Holds? ==> d == file.contents
      ensures file.Absent? || file.Corrupt? ==> d == []
    {
      match file
      case Holds(c) => d := c;
      case Absent => d := [];
      case Corrupt => d := [];
    }

    /** `save_cache(d)`: the file is rewritten with d, whatever it held before. */
    method Save(d: Snapshot<R>)
      modifies this
      ensures file == Holds(d)
    {
      file := Holds(d);
    }
  }

  /** A load right after a save returns the saved snapshot. */
  method SaveThenLoad<R>(c: Cache<R>, d: Snapshot<R>) returns (e: Snapshot<R>)
    modifies c
    ensures e == d && c.Loaded() == d
  {
    c.Save(d);
    e := c.Load();
  }
}
