/** One storage interface with an aliasing and a copying implementation (storage/memory_storage.py,
    storage/sqlite_storage.py), and the rows they hand out (storage/records.py). */
module Backends {
  import opened Wrappers

  /** Validation as records do it: it may normalise, and accepts what it has normalised. */
  ghost predicate Stable<D(!new)>(coerce: D -> Option<D>) {
    forall d :: coerce(d).Some? ==> coerce(coerce(d).value) == coerce(d)
  }

  /** A row after a partial update: unchanged where the update is rejected. */
  function Merged<D>(d: D, patch: D -> D, coerce: D -> Option<D>): D {
    var c := coerce(patch(d));
    if c.Some? then c.value else d
  }

  /** Every stored row is as validation leaves it. */
  ghost predicate Coherent<D(!new)>(s: map<string, D>, coerce: D -> Option<D>) {
    forall k :: k in s ==> coerce(s[k]) == Some(s[k])
  }

  function At<D>(s: map<string, D>, key: string, empty: D): D {
    if key in s then s[key] else empty
  }

  /** A store after an upsert: a rejected one leaves an empty row behind where there was none. */
  function Upserted<D>(s: map<string, D>, key: string, patch: D -> D, coerce: D -> Option<D>,
                       empty: D): map<string, D> {
    s[key := Merged(At(s, key, empty), patch, coerce)]
  }

  /** `DictRow`: a mutable row. */
  class RowObject<D(!new)> {
    const key: string
    var data: D

    constructor (key: string, data: D)
      ensures this.key == key && this.data == data
    {
      this.key, this.data := key, data;
    }

    /** `merge`: the new data is in place while it is validated, and rolled back on failure. */
    method Merge(patch: D -> D, coerce: D -> Option<D>) returns (ok: bool)
      modifies this
      ensures ok == coerce(patch(old(data))).Some?
      ensures data == Merged(old(data), patch, coerce)
    {
      var before := data;
      data := patch(data);
      var checked := coerce(data);
      ok := checked.Some?;
      data := if ok then checked.value else before;
    }
  }

  class Storage<D(!new)> {
    /** Whether rows are handed out live (memory) or as copies (database). */
    const aliasing: bool
    const coerce: D -> Option<D>
    const empty: D
    var objects: map<string, RowObject<D>>
    var rows: map<string, D>

    constructor (aliasing: bool, coerce: D -> Option<D>, empty: D)
      requires Stable(coerce) && coerce(empty) == Some(empty)
      ensures this.aliasing == aliasing && this.coerce == coerce && this.empty == empty
      ensures Valid() && Contents() == map[] && objects == map[]
    {
      this.aliasing, this.coerce, this.empty := aliasing, coerce, empty;
      objects, rows := map[], map[];
    }

    /** The stored data, whichever way it is kept. */
    ghost function Contents(): map<string, D>
      reads this, objects.Values
    {
      if aliasing then map k | k in objects :: objects[k].data else rows
    }

    ghost predicate Valid()
      reads this, objects.Values
    {
      && Stable(coerce) && coerce(empty) == Some(empty)
      && (forall k :: k in objects ==> objects[k].key == k)
      && Coherent(Contents(), coerce)
    }

    method Get(key: string) returns (obj: RowObject?<D>)
      requires Valid()
      ensures (obj == null) == (key !in Contents())
      ensures obj != null ==> obj.key == key && obj.data == Contents()[key]
      ensures obj != null && aliasing ==> key in objects && obj == objects[key]
      ensures obj != null && !aliasing ==> fresh(obj)
    {
      if aliasing {
        obj := if key in objects then objects[key] else null;
      } else if key in rows && coerce(rows[key]).Some? {
        obj := new RowObject(key, coerce(rows[key]).value);
      } else {
        obj := null;
      }
    }

    method Put(obj: RowObject<D>)
      requires Valid() && coerce(obj.data) == Some(obj.data)
      modifies this
      ensures Valid()
      ensures Contents() == old(Contents())[obj.key := obj.data]
      ensures forall r :: r in objects.Values ==> r in old(objects.Values) || r == obj
      ensures !aliasing ==> objects == old(objects)
      ensures obj.key in Contents() && (aliasing ==> obj.key in objects && objects[obj.key] == obj)
    {
      if aliasing {
        objects := objects[obj.key := obj];
      } else {
        rows := rows[obj.key := obj.data];
      }
      assert Contents() == old(Contents())[obj.key := obj.data];
    }

    /** A row that was handed out is put again. */
    method PutBack(obj: RowObject<D>)
      requires Valid() && coerce(obj.data) == Some(obj.data)
      requires aliasing ==> obj.key in objects && obj == objects[obj.key]
      modifies this
      ensures Valid() && objects.Values <= old(objects.Values)
      ensures Contents() == old(Contents())[obj.key := obj.data]
    {
      Put(obj);
    }

    method GetOrCreate(key: string) returns (obj: RowObject<D>)
      requires Valid()
      modifies this
      ensures Valid()
      ensures Contents() == old(Contents())[key := At(old(Contents()), key, empty)]
      ensures obj.key == key && obj.data == Contents()[key]
      ensures aliasing ==> key in objects && obj == objects[key]
      ensures aliasing ==> obj in old(objects.Values) || fresh(obj)
      ensures !aliasing ==> fresh(obj) && objects == old(objects)
      ensures forall r :: r in objects.Values ==> r in old(objects.Values) || fresh(r)
    {
      var existing := Get(key);
      if existing != null {
        assert Contents() == Contents()[key := Contents()[key]];
        return existing;
      }
      obj := new RowObject(key, empty);
      Put(obj);
    }

    /** Get or create, merge, and (copying) write back. */
    method Upsert(key: string, patch: D -> D) returns (obj: RowObject<D>, ok: bool)
      requires Valid()
      modifies this, objects.Values
      ensures Valid()
      ensures ok == coerce(patch(At(old(Contents()), key, empty))).Some?
      ensures Contents() == Upserted(old(Contents()), key, patch, coerce, empty)
      ensures forall r :: r in objects.Values ==> r in old(objects.Values) || fresh(r)
    {
      obj := GetOrCreate(key);
      ghost var before := Contents();
      ok := obj.Merge(patch, coerce);
      if ok && !aliasing {
        Put(obj);
      }
      assert forall k :: k in objects && k != key ==> objects[k] != obj || !aliasing;
      assert Contents() == before[key := Merged(before[key], patch, coerce)];
    }

    method Remove(key: string)
      requires Valid()
      modifies this
      ensures Valid()
      ensures Contents() == old(Contents()) - {key}
      ensures forall r :: r in objects.Values ==> r in old(objects.Values)
    {
      if aliasing {
        objects := objects - {key};
      } else {
        rows := rows - {key};
      }
      assert Contents() == old(Contents()) - {key};
    }

    /** `snapshot`: the whole store as plain data. */
    method Snapshot() returns (plain: map<string, D>)
      ensures plain == Contents()
    {
      plain := if aliasing then map k | k in objects :: objects[k].data else rows;
    }
  }
}
