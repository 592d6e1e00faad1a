/**
 * The records of the warehouse floor plan and the pure list updates that the
 * page's handlers apply to the previous list (the functions passed to the
 * state setters: `map`, `filter` and the spread append).
 */
module Layout {
  import opened Wrappers

  /** A product as the warehouse page receives it from the catalog. */
  datatype Product = Product(
    productoId: string,
    nombre: string,
    precio: real,
    cantidadExistente: real,
    categoria: Option<int>,
    proveedor: string,
    descripcion: string)

  /**
   * A rack or a palet. The page declares two record types with exactly these
   * fields, so one datatype serves both lists.
   */
  datatype StorageUnit = StorageUnit(
    id: int,
    x: real,
    y: real,
    locked: bool,
    qrData: string,
    productos: seq<Product>)

  /** A doorway; `visible == false` hides it without removing it from the list. */
  datatype Door = Door(x: real, y: real, visible: bool)

  function Flipped(u: StorageUnit): StorageUnit {
    u.(locked := !u.locked)
  }

  /** The lock toggle: every entry whose id is `id` gets its `locked` flag negated. */
  function ToggleLocked(s: seq<StorageUnit>, id: int): (r: seq<StorageUnit>)
    ensures |r| == |s|
    ensures forall k :: 0 <= k < |s| ==>
              r[k].id == s[k].id && r[k].x == s[k].x && r[k].y == s[k].y &&
              r[k].qrData == s[k].qrData && r[k].productos == s[k].productos
  {
    if s == [] then []
    else [if s[0].id == id then Flipped(s[0]) else s[0]] + ToggleLocked(s[1..], id)
  }

  /** The delete handlers: keep the entries whose id is not `id`. */
  function RemoveId(s: seq<StorageUnit>, id: int): (r: seq<StorageUnit>)
    ensures |r| <= |s|
    ensures forall k :: 0 <= k < |r| ==> r[k].id != id
  {
    if s == [] then []
    else (if s[0].id == id then [] else [s[0]]) + RemoveId(s[1..], id)
  }

  /** The door soft-delete: the door at position `index` is made invisible. */
  function HideAt(s: seq<Door>, index: int): (r: seq<Door>)
    ensures |r| == |s|
    ensures forall k :: 0 <= k < |s| ==> r[k].x == s[k].x && r[k].y == s[k].y
  {
    if s == [] then []
    else [if index == 0 then s[0].(visible := false) else s[0]] + HideAt(s[1..], index - 1)
  }

  /** `Array.prototype.find` by id: the first entry with that id. */
  function FindById(s: seq<StorageUnit>, id: int): (r: Option<StorageUnit>)
    ensures r.Some? ==> r.value in s && r.value.id == id
  {
    if s == [] then None
    else if s[0].id == id then Some(s[0])
    else FindById(s[1..], id)
  }

  /** `Array.prototype.slice(from, to)` for non-negative bounds, which are clipped to the length. */
  function Slice<T>(s: seq<T>, from: nat, to: nat): (r: seq<T>)
    ensures |r| <= |s| && (to <= from ==> r == [])
    ensures from < to ==> from + |r| <= to
    ensures forall k :: 0 <= k < |r| ==> from + k < |s| && r[k] == s[from + k]
    ensures |r| == if from < to && from < |s| then (if to < |s| then to else |s|) - from else 0
  {
    var f := if from < |s| then from else |s|;
    var t := if to < |s| then to else |s|;
    if t <= f then [] else s[f..t]
  }

  /** The number of doors still shown. */
  function CountVisible(s: seq<Door>): nat {
    if s == [] then 0 else (if s[0].visible then 1 else 0) + CountVisible(s[1..])
  }

  predicate IdsIncreasing(s: seq<StorageUnit>) {
    forall i, j :: 0 <= i < j < |s| ==> s[i].id < s[j].id
  }

  // ---------------------------------------------------------------------------
  // Lock toggle

  /** Entry by entry: only entries with the matching id change, and only in `locked`. */
  lemma {:induction false} ToggleLockedAt(s: seq<StorageUnit>, id: int, k: int)
    requires 0 <= k < |s|
    ensures ToggleLocked(s, id)[k] == if s[k].id == id then s[k].(locked := !s[k].locked) else s[k]
  {
    if k > 0 {
      ToggleLockedAt(s[1..], id, k - 1);
    }
  }

  /** Toggling the same id twice gives back the original list. */
  lemma {:induction false} ToggleLockedTwice(s: seq<StorageUnit>, id: int)
    ensures ToggleLocked(ToggleLocked(s, id), id) == s
  {
    if s != [] {
      ToggleLockedTwice(s[1..], id);
    }
  }

  /** A toggle keeps every id where it was, so an increasing id order survives it. */
  lemma ToggleLockedKeepsIds(s: seq<StorageUnit>, id: int)
    ensures forall k :: 0 <= k < |s| ==> ToggleLocked(s, id)[k].id == s[k].id
    ensures IdsIncreasing(s) ==> IdsIncreasing(ToggleLocked(s, id))
  {
    forall k | 0 <= k < |s| ensures ToggleLocked(s, id)[k].id == s[k].id {
      ToggleLockedAt(s, id, k);
    }
  }

  /** Reading the toggled list by id finds the same entry as before, with its flag negated. */
  lemma {:induction false} FindAfterToggle(s: seq<StorageUnit>, id: int)
    ensures FindById(ToggleLocked(s, id), id) ==
            match FindById(s, id)
            case None => None
            case Some(u) => Some(Flipped(u))
  {
    if s != [] && s[0].id != id {
      FindAfterToggle(s[1..], id);
    }
  }

  /** `find` gives nothing exactly when no entry has the id, and otherwise the first such entry. */
  lemma {:induction false} FindByIdFirst(s: seq<StorageUnit>, id: int)
    ensures FindById(s, id) == None <==> forall k :: 0 <= k < |s| ==> s[k].id != id
    ensures FindById(s, id).Some? ==>
              exists k :: 0 <= k < |s| && s[k] == FindById(s, id).value && s[k].id == id &&
                          forall j :: 0 <= j < k ==> s[j].id != id
  {
    if s != [] && s[0].id != id {
      FindByIdFirst(s[1..], id);
      if FindById(s, id).Some? {
        var k :| 0 <= k < |s[1..]| && s[1..][k] == FindById(s, id).value && s[1..][k].id == id &&
                 forall j :: 0 <= j < k ==> s[1..][j].id != id;
        assert s[k + 1] == s[1..][k];
        forall j | 0 <= j < k + 1 ensures s[j].id != id {
          if j > 0 { assert s[j] == s[1..][j - 1]; }
        }
      } else {
        forall k | 0 <= k < |s| ensures s[k].id != id {
          if k > 0 { assert s[k] == s[1..][k - 1]; }
        }
      }
    }
  }

  // ---------------------------------------------------------------------------
  // Delete

  /** What survives a delete: exactly the entries of the list whose id differs. */
  lemma {:induction false} RemoveIdMembers(s: seq<StorageUnit>, id: int)
    ensures forall u :: u in RemoveId(s, id) <==> u in s && u.id != id
  {
    if s != [] {
      RemoveIdMembers(s[1..], id);
      assert s == [s[0]] + s[1..];
    }
  }

  /** Deleting distributes over concatenation, so the survivors keep their relative order. */
  lemma {:induction false} RemoveIdAppend(a: seq<StorageUnit>, b: seq<StorageUnit>, id: int)
    ensures RemoveId(a + b, id) == RemoveId(a, id) + RemoveId(b, id)
  {
    if a == [] {
      assert a + b == b;
    } else {
      assert (a + b)[1..] == a[1..] + b;
      RemoveIdAppend(a[1..], b, id);
    }
  }

  /** Deleting an id that no entry carries changes nothing. */
  lemma {:induction false} RemoveIdAbsent(s: seq<StorageUnit>, id: int)
    requires forall k :: 0 <= k < |s| ==> s[k].id != id
    ensures RemoveId(s, id) == s
  {
    if s != [] {
      RemoveIdAbsent(s[1..], id);
    }
  }

  /** A second delete of the same id changes nothing. */
  lemma RemoveIdIdempotent(s: seq<StorageUnit>, id: int)
    ensures RemoveId(RemoveId(s, id), id) == RemoveId(s, id)
  {
    var r := RemoveId(s, id);
    RemoveIdMembers(s, id);
    assert forall k :: 0 <= k < |r| ==> r[k] in r;
    RemoveIdAbsent(r, id);
  }

  /** A delete keeps an increasing id order. */
  lemma {:induction false} RemoveIdKeepsIncreasing(s: seq<StorageUnit>, id: int)
    requires IdsIncreasing(s)
    ensures IdsIncreasing(RemoveId(s, id))
  {
    if s != [] {
      var rest := RemoveId(s[1..], id);
      RemoveIdKeepsIncreasing(s[1..], id);
      RemoveIdMembers(s[1..], id);
      if s[0].id != id {
        forall j | 0 <= j < |rest| ensures s[0].id < rest[j].id {
          assert rest[j] in s[1..];
          var m :| 0 <= m < |s[1..]| && s[1..][m] == rest[j];
          assert s[m + 1] == rest[j];
        }
      }
    }
  }

  // ---------------------------------------------------------------------------
  // Door soft-delete

  /** Hiding touches only the door at `index` and only its `visible` flag. */
  lemma {:induction false} HideAtAt(s: seq<Door>, index: int, k: int)
    requires 0 <= k < |s|
    ensures HideAt(s, index)[k] == if k == index then s[k].(visible := false) else s[k]
  {
    if k > 0 {
      HideAtAt(s[1..], index - 1, k - 1);
    }
  }

  /** Hiding the same door twice is the same as hiding it once. */
  lemma {:induction false} HideAtIdempotent(s: seq<Door>, index: int)
    ensures HideAt(HideAt(s, index), index) == HideAt(s, index)
  {
    if s != [] {
      HideAtIdempotent(s[1..], index - 1);
    }
  }

  /** Hiding removes at most one door from view: the one at `index`, if it was shown. */
  lemma {:induction false} HideAtCount(s: seq<Door>, index: int)
    ensures CountVisible(HideAt(s, index)) ==
            CountVisible(s) - (if 0 <= index < |s| && s[index].visible then 1 else 0)
  {
    if s != [] {
      HideAtCount(s[1..], index - 1);
      if index != 0 && 0 <= index < |s| {
        assert s[index] == s[1..][index - 1];
      }
    }
  }

  /** Increasing ids are pairwise distinct. */
  lemma IncreasingIdsDistinct(s: seq<StorageUnit>)
    requires IdsIncreasing(s)
    ensures forall i, j :: 0 <= i < |s| && 0 <= j < |s| && i != j ==> s[i].id != s[j].id
  {
  }
}
