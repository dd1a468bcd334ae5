/** The value cell of cli/src/state.rs: cached in memory, persisted to a file on a best-effort basis. */
module PersistedState {
  import opened Basics

  /** A state file; `Torn` holds bytes that do not parse. */
  datatype File<T> = Absent | Text(value: T) | Torn

  /** How writing a file ends: it may fail before or after the file was truncated. */
  datatype WriteEnd = Written | NotOpened | Cut

  function AfterWrite<T>(file: File<T>, value: T, end: WriteEnd): File<T> {
    match end
    case Written => Text(value)
    case NotOpened => file
    case Cut => Torn
  }

  /** What a new process reads. */
  function OnDisk<T>(file: File<T>, default: T): T {
    if file.Text? then file.value else default
  }

  class Container<T> {
    var state: Option<T>
    var file: File<T>
    const default: T

    constructor (file: File<T>, default: T)
      ensures this.state == None && this.file == file && this.default == default
    {
      this.state, this.file, this.default := None, file, default;
    }

    /** The value of the cell, whether or not it has been loaded. */
    function Current(): T
      reads this
    {
      if state.Some? then state.value else OnDisk(file, default)
    }

    method LoadOrGet() returns (value: T)
      modifies this`state
      ensures value == old(Current()) && state == Some(value) && Current() == value
      ensures old(state).Some? ==> value == old(state).value
      ensures old(state).None? ==> match file case Text(v) => value == v case Absent => value
        == default case Torn => value == default
    {
      if state.Some? {
        return state.value;
      }
      value := if file.Text? then file.value else default;
      state := Some(value);
    }

    /** The cell holds the new value even when the file could not be written. */
    method Save(value: T, end: WriteEnd) returns (ok: bool)
      modifies this
      ensures ok == end.Written? && Current() == value && state == Some(value)
      ensures file == AfterWrite(old(file), value, end)
      ensures match end
              case Written => file == Text(value) && OnDisk(file, default) == value
              case NotOpened => file == old(file)
              case Cut => file == Torn && OnDisk(file, default) == default
    {
      state := Some(value);
      match end {
        case Written => file := Text(value);
        case NotOpened =>
        case Cut => file := Torn;
      }
      ok := end.Written?;
    }

    method Update(mutator: T -> T, end: WriteEnd) returns (ok: bool)
      modifies this
      ensures ok == end.Written? && Current() == mutator(old(Current())) && state == Some(Current())
      ensures file == AfterWrite(old(file), Current(), end)
    {
      var value := LoadOrGet();
      ok := Save(mutator(value), end);
    }
  }
}
