/**
 * The state of the warehouse page and its handlers: the rack, palet and door
 * lists, the palet id counter, the drawer map shared by racks and palets, the
 * rack chosen for printing, the hover and product-detail state, and the drag
 * switch that the lock toggle sets on an element.
 */
module Deposito {
  import opened Wrappers
  import opened Layout
  import Text

  /** The interact target an element is bound under: `#rack-<id>`, `#palet-<id>` or `#door-<index>`. */
  datatype Selector = RackElement(id: int) | PaletElement(id: int) | DoorElement(index: int)

  /**
   * The callback a lock toggle schedules for the next tick: it captured the
   * updated list and will set dragging on `target` from the entry with `id`.
   */
  datatype Rebind = Rebind(target: Selector, id: int, snapshot: seq<StorageUnit>)

  /** A rack creation in flight: the record sent to the server and the rack list the handler captured. */
  datatype RackRequest = RackRequest(candidate: StorageUnit, captured: seq<StorageUnit>)

  /** The rack record addRack sends when the list has `count` racks. */
  function RackCandidate(count: nat): StorageUnit {
    StorageUnit(count + 1, 0.0, 0.0, false, "Rack-" + Text.NatToString(count + 1), [])
  }

  /** The palet addPalet appends: counter id, origin, unlocked, catalog products 3 to 5. */
  function NewPalet(id: nat, catalog: seq<Product>): StorageUnit {
    StorageUnit(id, 0.0, 0.0, false, "Palet-" + Text.NatToString(id), Slice(catalog, 3, 6))
  }

  /** What the deferred callback writes: `!locked` of the first entry with the id, if there is one. */
  function RebindValue(snapshot: seq<StorageUnit>, id: int): Option<bool> {
    match FindById(snapshot, id)
    case None => None
    case Some(u) => Some(!u.locked)
  }

  /** `drawerOpen[id] || false`: whether the drawer of the rack or palet with this id is shown. */
  function DrawerShown(drawerOpen: map<int, bool>, id: int): bool {
    id in drawerOpen && drawerOpen[id]
  }

  predicate PaletsConsistent(palets: seq<StorageUnit>, nextId2: int) {
    1 <= nextId2 &&
    IdsIncreasing(palets) &&
    forall k :: 0 <= k < |palets| ==> 1 <= palets[k].id < nextId2
  }

  class FloorPlan {
    var racks: seq<StorageUnit>
    var palets: seq<StorageUnit>
    var doors: seq<Door>
    var nextId2: int
    var drawerOpen: map<int, bool>
    var currentRackId: Option<int>
    var hoveredRackId: Option<int>
    var hoveredPaletId: Option<int>
    var productoDetalle: Option<Product>
    /** The label-printing modal of the rack drawer (`open`). */
    var labelModalOpen: bool
    /** Whether dragging is enabled for an interact target, as last set by a lock toggle's callback. */
    var draggable: map<Selector, bool>

    /** Palets get increasing ids below the counter, so their ids are distinct. */
    ghost predicate Valid()
      reads this
    {
      PaletsConsistent(palets, nextId2)
    }

    /** The page on mount: everything empty, the palet counter at 1. */
    constructor ()
      ensures Valid()
      ensures racks == [] && palets == [] && doors == [] && nextId2 == 1
      ensures drawerOpen == map[] && currentRackId == None && productoDetalle == None
      ensures hoveredRackId == None && hoveredPaletId == None && !labelModalOpen && draggable == map[]
    {
      racks, palets, doors := [], [], [];
      nextId2 := 1;
      drawerOpen := map[];
      currentRackId, hoveredRackId, hoveredPaletId := None, None, None;
      productoDetalle := None;
      labelModalOpen := false;
      draggable := map[];
    }

    /** The effect on the racks query: once the server's list is there, it replaces the local one. */
    method SeedRacks(racksData: Option<seq<StorageUnit>>)
      modifies this`racks
      ensures racks == if racksData.Some? then racksData.value else old(racks)
    {
      if racksData.Some? {
        racks := racksData.value;
      }
    }

    // -------------------------------------------------------------------------
    // Creation

    /** addRack up to the request: the candidate record it sends, and the list it captured. */
    method BeginAddRack() returns (req: RackRequest)
      ensures req.captured == racks
      ensures req.candidate.id == |racks| + 1 && req.candidate.qrData == "Rack-" + Text.NatToString(|racks| + 1)
      ensures req.candidate.x == 0.0 && req.candidate.y == 0.0
      ensures !req.candidate.locked && req.candidate.productos == []
    {
      req := RackRequest(RackCandidate(|racks|), racks);
    }

    /**
     * addRack after the server answered: on success the reply is appended to
     * the list the handler captured; on failure the error is only logged.
     */
    method CompleteAddRack(req: RackRequest, reply: Result<StorageUnit, string>)
      modifies this`racks
      ensures racks == if reply.Success? then req.captured + [reply.value] else old(racks)
    {
      if reply.Success? {
        racks := req.captured + [reply.value];
      }
    }

    /**
     * addPalet. `catalog` is the products query's data; while it is still
     * undefined, `slice` throws and neither the list nor the counter changes.
     */
    method AddPalet(catalog: Option<seq<Product>>)
      requires Valid()
      modifies this`palets, this`nextId2
      ensures Valid()
      ensures catalog.None? ==> palets == old(palets) && nextId2 == old(nextId2)
      ensures catalog.Some? ==> palets == old(palets) + [NewPalet(old(nextId2), catalog.value)]
      ensures catalog.Some? ==> nextId2 == old(nextId2) + 1
    {
      if catalog.Some? {
        palets := palets + [NewPalet(nextId2, catalog.value)];
        nextId2 := nextId2 + 1;
      }
    }

    /** addDoor: a visible door at the origin is appended. */
    method AddDoor()
      modifies this`doors
      ensures doors == old(doors) + [Door(0.0, 0.0, true)]
    {
      doors := doors + [Door(0.0, 0.0, true)];
    }

    /** borrarEntrada: the door at `index` is hidden, never removed. */
    method HideDoor(index: int)
      modifies this`doors
      ensures doors == HideAt(old(doors), index)
      ensures |doors| == |old(doors)|
    {
      doors := HideAt(doors, index);
    }

    // -------------------------------------------------------------------------
    // Lock and delete

    /** toggleLock: flips `locked` on the racks with this id and schedules the rebind of `#rack-<id>`. */
    method ToggleLock(id: int) returns (task: Rebind)
      modifies this`racks
      ensures racks == ToggleLocked(old(racks), id)
      ensures task == Rebind(RackElement(id), id, racks)
    {
      racks := ToggleLocked(racks, id);
      task := Rebind(RackElement(id), id, racks);
    }

    /** togglePaletLock: the same for palets and `#palet-<id>`. */
    method TogglePaletLock(id: int) returns (task: Rebind)
      requires Valid()
      modifies this`palets
      ensures Valid()
      ensures palets == ToggleLocked(old(palets), id)
      ensures task == Rebind(PaletElement(id), id, palets)
    {
      ToggleLockedKeepsIds(palets, id);
      palets := ToggleLocked(palets, id);
      task := Rebind(PaletElement(id), id, palets);
    }

    /**
     * The deferred callback of a lock toggle: it reads the list it captured,
     * not the current one, and does nothing if the id is not in it.
     */
    method RunRebind(task: Rebind)
      modifies this`draggable
      ensures draggable == match RebindValue(task.snapshot, task.id)
                           case None => old(draggable)
                           case Some(b) => old(draggable)[task.target := b]
    {
      var found := FindById(task.snapshot, task.id);
      if found.Some? {
        draggable := draggable[task.target := !found.value.locked];
      }
    }

    /** deleteRack: every rack with this id is removed. */
    method DeleteRack(id: int)
      modifies this`racks
      ensures racks == RemoveId(old(racks), id)
    {
      racks := RemoveId(racks, id);
    }

    /** deletepalet: every palet with this id is removed. */
    method DeletePalet(id: int)
      requires Valid()
      modifies this`palets
      ensures Valid()
      ensures palets == RemoveId(old(palets), id)
    {
      RemoveIdKeepsIncreasing(palets, id);
      RemoveIdMembers(palets, id);
      var r := RemoveId(palets, id);
      forall k | 0 <= k < |r| ensures 1 <= r[k].id < nextId2 {
        assert r[k] in palets;
      }
      palets := r;
    }

    // -------------------------------------------------------------------------
    // Drawers, detail panel, hover

    /**
     * toggleDrawerRack and toggleDrawerPalet, which have the same body: the
     * one shared map records the drawer state for the id, and the id becomes
     * the print target when opening, with no target when closing.
     */
    method ToggleDrawer(id: int, open: bool)
      modifies this`drawerOpen, this`currentRackId
      ensures drawerOpen == old(drawerOpen)[id := open]
      ensures currentRackId == if open then Some(id) else None
      ensures DrawerShown(drawerOpen, id) == open
      ensures forall other :: other != id ==> DrawerShown(drawerOpen, other) == DrawerShown(old(drawerOpen), other)
    {
      drawerOpen := drawerOpen[id := open];
      if open {
        currentRackId := Some(id);
      } else {
        currentRackId := None;
      }
    }

    /** abrirDetalles: the product is shown in the detail panel. */
    method OpenDetails(producto: Product)
      modifies this`productoDetalle
      ensures productoDetalle == Some(producto)
    {
      productoDetalle := Some(producto);
    }

    /** cerrarDetalles: the detail panel is emptied, which closes it. */
    method CloseDetails()
      modifies this`productoDetalle
      ensures productoDetalle == None
    {
      productoDetalle := None;
    }

    /** The detail drawer's onClose: only a backdrop click or the escape key closes it. */
    method OnDetailDrawerClose(reason: string)
      modifies this`productoDetalle
      ensures reason == "backdropClick" || reason == "escapeKeyDown" ==> productoDetalle == None
      ensures !(reason == "backdropClick" || reason == "escapeKeyDown") ==> productoDetalle == old(productoDetalle)
    {
      if reason == "backdropClick" || reason == "escapeKeyDown" {
        CloseDetails();
      }
    }

    /** onMouseEnter and onMouseLeave of a rack: after entering a rack with id `a` only the racks with id `a` show their buttons, after leaving none does. */
    method HoverRack(id: Option<int>)
      modifies this`hoveredRackId
      ensures hoveredRackId == id
      ensures forall b :: RackButtonsShown(b) <==> id == Some(b)
      ensures forall a, b :: RackButtonsShown(a) && RackButtonsShown(b) ==> a == b
    {
      hoveredRackId := id;
    }

    /** onMouseEnter and onMouseLeave of a palet, with the same effect on the palets' buttons. */
    method HoverPalet(id: Option<int>)
      modifies this`hoveredPaletId
      ensures hoveredPaletId == id
      ensures forall b :: PaletButtonsShown(b) <==> id == Some(b)
      ensures forall a, b :: PaletButtonsShown(a) && PaletButtonsShown(b) ==> a == b
    {
      hoveredPaletId := id;
    }

    /** handleOpen and handleClose of the label modal. */
    method SetLabelModal(open: bool)
      modifies this`labelModalOpen
      ensures labelModalOpen == open
    {
      labelModalOpen := open;
    }

    /** Whether the action buttons of the rack with this id are shown. */
    function RackButtonsShown(id: int): bool
      reads this
    {
      match hoveredRackId
      case None => false
      case Some(h) => h == id
    }

    /** Whether the action buttons of the palet with this id are shown. */
    function PaletButtonsShown(id: int): bool
      reads this
    {
      match hoveredPaletId
      case None => false
      case Some(h) => h == id
    }
  }

  // ---------------------------------------------------------------------------
  // Properties of the handlers' specifications

  /**
   * After a toggle, the rebind enables dragging exactly when the entry was
   * locked before the toggle (it is now unlocked), and does nothing for an
   * id that is not in the list.
   */
  lemma RebindAfterToggle(s: seq<StorageUnit>, id: int)
    ensures RebindValue(ToggleLocked(s, id), id) ==
            match FindById(s, id)
            case None => None
            case Some(u) => Some(u.locked)
  {
    FindAfterToggle(s, id);
  }

  /** Adding a palet keeps the palet ids increasing and below the counter. */
  lemma AddPaletConsistent(palets: seq<StorageUnit>, nextId2: int, catalog: seq<Product>)
    requires PaletsConsistent(palets, nextId2)
    ensures PaletsConsistent(palets + [NewPalet(nextId2, catalog)], nextId2 + 1)
  {
  }

  /** Palets with different ids carry different labels. */
  lemma PaletLabelsDistinct(a: nat, b: nat, catalog: seq<Product>)
    requires a != b
    ensures NewPalet(a, catalog).qrData != NewPalet(b, catalog).qrData
  {
    var pa, pb := Text.NatToString(a), Text.NatToString(b);
    if "Palet-" + pa == "Palet-" + pb {
      assert pa == ("Palet-" + pa)[6..];
      assert pb == ("Palet-" + pb)[6..];
      Text.NatToStringInjective(a, b);
    }
  }

  /** Once a rack is deleted, the next candidate id can be one a remaining rack already has. */
  lemma RackCandidateCanRepeatId(u1: StorageUnit, u2: StorageUnit)
    requires u1.id == 1 && u2.id == 2
    ensures RackCandidate(|RemoveId([u1, u2], 1)|).id == u2.id
    ensures RemoveId([u1, u2], 1) == [u2]
  {
    assert [u1, u2][1..] == [u2];
    assert [u2][1..] == [];
  }

  /** The hover state shows the buttons of at most one rack and of at most one palet at a time. */
  lemma HoverShowsAtMostOne(p: FloorPlan, a: int, b: int)
    ensures p.RackButtonsShown(a) && p.RackButtonsShown(b) ==> a == b
    ensures p.PaletButtonsShown(a) && p.PaletButtonsShown(b) ==> a == b
  {
  }

  /** The drawer map: setting one id leaves every other id's drawer as it was. */
  lemma DrawerFrame(m: map<int, bool>, id: int, open: bool, other: int)
    ensures DrawerShown(m[id := open], id) == open
    ensures other != id ==> DrawerShown(m[id := open], other) == DrawerShown(m, other)
  {
  }
}
