/** A state file and the value kept for it (store.rs): what is kept is what a reload would
    find, and a file that could not be read is never written. */
module Stored {
  import opened Wrappers

  /** What is on disk; text that does not parse counts as unreadable. */
  datatype File<J> = Missing | Unreadable | Holds(json: J)

  /** Decoding what was encoded gives back every value that decoding can produce. */
  ghost predicate CodecLaw<T(!new), J(!new)>(decode: J -> Result<T>, encode: T -> Result<J>) {
    forall j: J, v: T :: decode(j) == Ok(v) ==> encode(v).Ok? && decode(encode(v).value) == Ok(v)
  }

  datatype Prepared<T, J> = Prepared(json: J, value: T)

  class Stored<T(!new, ==), J(!new, ==)> {
    const decode: J -> Result<T>
    const encode: T -> Result<J>
    var value: T
    var unreadable: Option<ErrorCode>
    var file: File<J>

    /** A writable store holds what loading its file would give. */
    ghost predicate Valid()
      reads this
    {
      && CodecLaw(decode, encode)
      && (unreadable.None? ==> file != Unreadable && (file.Holds? ==> decode(file.json) == Ok(value)))
    }

    /** `load`: every failure to read, decode or seed leaves the fallback, read-only. */
    constructor (file: File<J>, fallback: T, decode: J -> Result<T>, encode: T -> Result<J>, seedMissing: bool)
      requires CodecLaw(decode, encode)
      requires seedMissing ==> encode(fallback).Ok? && decode(encode(fallback).value) == Ok(fallback)
      ensures Valid() && this.decode == decode && this.encode == encode
      ensures file.Holds? ==>
        && this.file == file
        && (decode(file.json).Ok? ==> unreadable.None? && value == decode(file.json).value)
        && (decode(file.json).Err? ==> unreadable == Some(CorruptStore) && value == fallback)
      ensures file.Unreadable? ==> this.file == file && unreadable == Some(CorruptStore) && value == fallback
      ensures file.Missing? ==> value == fallback && (!seedMissing ==> unreadable.None? && this.file == file)
      ensures seedMissing && unreadable.None? ==> this.file.Holds?
      ensures unreadable.Some? ==> this.file == file
    {
      this.decode, this.encode := decode, encode;
      this.value, this.unreadable, this.file := fallback, None, file;
      new;
      match file
      case Holds(json) =>
        var loaded := decode(json);
        if loaded.Ok? {
          value := loaded.value;
        } else {
          unreadable := Some(CorruptStore);
        }
      case Unreadable =>
        unreadable := Some(CorruptStore);
      case Missing =>
        if seedMissing {
          var failed: bool := *;
          if failed {
            unreadable := Some(CorruptStore);
          } else {
            this.file := Holds(encode(value).value);
          }
        }
    }

    /** Writes the temporary file: the value as a reload would see it. */
    method Prepare(v: T) returns (r: Result<Prepared<T, J>>)
      requires Valid()
      ensures unreadable.Some? ==> r == Err(unreadable.value)
      ensures encode(v).Err? ==> r.Err?
      ensures encode(v).Ok? && decode(encode(v).value).Err? ==> r.Err?
      ensures r.Ok? ==>
        && encode(v).Ok? && decode(encode(v).value) == Ok(r.value.value)
        && encode(r.value.value) == Ok(r.value.json) && decode(r.value.json) == Ok(r.value.value)
    {
      if unreadable.Some? {
        return Err(unreadable.value);
      }
      var first :- encode(v);
      var value :- decode(first);
      var json :- encode(value);
      var failed: bool := *;
      if failed {
        return Err(Io);
      }
      r := Ok(Prepared(json, value));
    }

    /** Moves the temporary file into place; a prepared value exists for writable stores
        only. */
    method Publish(prepared: Prepared<T, J>) returns (r: Result<()>)
      requires Valid() && unreadable.None? && decode(prepared.json) == Ok(prepared.value)
      modifies this`file, this`value
      ensures Valid()
      ensures r.Ok? ==> file == Holds(prepared.json) && value == prepared.value
      ensures r.Err? ==> file == old(file) && value == old(value)
    {
      var failed: bool := *;
      if failed {
        return Err(Io);
      }
      file := Holds(prepared.json);
      value := prepared.value;
      r := Ok(());
    }

    /** After a success a reload decodes exactly the kept value; otherwise nothing changed,
        and a read-only store always refuses. */
    method Replace(v: T) returns (r: Result<()>)
      requires Valid()
      modifies this`file, this`value
      ensures Valid()
      ensures unreadable.Some? ==> r.Err?
      ensures r.Err? ==> file == old(file) && value == old(value)
      ensures r.Ok? ==>
        && encode(v).Ok? && decode(encode(v).value) == Ok(value)
        && file.Holds? && decode(file.json) == Ok(value)
    {
      var prepared :- Prepare(v);
      r := Publish(prepared);
    }
  }
}
