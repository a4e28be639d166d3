/** Modules 60, 61 and 62: copying, clearing, deleting and setting the
    wipe-copy flag of graphics objects, and the opcode tables that bind these
    operations to (opcode, overload) pairs. */
module ObjManagement {
  import opened Wrappers

  /** The two object layers, OBJ_FG_LAYER and OBJ_BG_LAYER. */
  datatype Layer = FgLayer | BgLayer

  /** The part of a graphics object these operations touch. */
  datatype GraphicsObject = GraphicsObject(cleared: bool, deleted: bool, wipeCopy: int)

  /** The object found in a buffer nothing has been stored in yet. */
  const DefaultObject := GraphicsObject(false, false, 0)

  /** GraphicsObject::clearObject. */
  function ClearObject(o: GraphicsObject): (cleared: GraphicsObject)
  {
    o.(cleared := true)
  }

  /** GraphicsObject::deleteObject. */
  function DeleteObject(o: GraphicsObject): (deleted: GraphicsObject)
  {
    o.(deleted := true)
  }

  /** GraphicsObject::setWipeCopy. */
  function SetWipeCopy(o: GraphicsObject, value: int): (updated: GraphicsObject)
  {
    o.(wipeCopy := value)
  }

  /** The graphics objects of the machine, one per (layer, buffer), reached
      through getGraphicsObject and setGraphicsObject. */
  class GraphicsSystem {
    var objects: map<(Layer, int), GraphicsObject>

    constructor ()
      ensures objects == map[]
    {
      objects := map[];
    }

    /** getGraphicsObject: the object in buffer `buf` of `layer`. */
    function Object(layer: Layer, buf: int): (o: GraphicsObject)
      reads this
    {
      if (layer, buf) in objects then objects[(layer, buf)] else DefaultObject
    }

    /** Obj_objCopy: buffer `dbuf` of `toLayer` becomes a copy of buffer
        `sbuf` of `fromLayer`; every other object, the source included when it
        is a different buffer, is unchanged. */
    method ObjCopy(fromLayer: Layer, toLayer: Layer, sbuf: int, dbuf: int)
      modifies this
      ensures forall l, b :: Object(l, b) ==
                if l == toLayer && b == dbuf then old(Object(fromLayer, sbuf)) else old(Object(l, b))
    {
      var go := Object(fromLayer, sbuf);
      objects := objects[(toLayer, dbuf) := go];
    }

    /** Obj_objCopyFgToBg: the background object `buf` becomes a copy of the
        foreground object `buf`. */
    method ObjCopyFgToBg(buf: int)
      modifies this
      ensures forall l, b :: Object(l, b) ==
                if l == BgLayer && b == buf then old(Object(FgLayer, buf)) else old(Object(l, b))
    {
      ObjCopy(FgLayer, BgLayer, buf, buf);
    }

    /** Obj_objClear_0: clears one object. */
    method ObjClearOne(layer: Layer, buf: int)
      modifies this
      ensures forall l, b :: Object(l, b) ==
                if l == layer && b == buf then ClearObject(old(Object(l, b))) else old(Object(l, b))
    {
      objects := objects[(layer, buf) := ClearObject(Object(layer, buf))];
    }

    /** Obj_objClear_1: clears every object of `layer` in the INCLUSIVE range
        [min, max] (none when max < min); all others are unchanged. */
    method ObjClearRange(layer: Layer, min: int, max: int)
      modifies this
      ensures forall l, b :: Object(l, b) ==
                if l == layer && min <= b <= max then ClearObject(old(Object(l, b))) else old(Object(l, b))
    {
      var end := max + 1;
      var i := min;
      while i < end
        invariant i == min || min < i <= end
        invariant forall l, b :: Object(l, b) ==
                    if l == layer && min <= b < i then ClearObject(old(Object(l, b))) else old(Object(l, b))
      {
        objects := objects[(layer, i) := ClearObject(Object(layer, i))];
        i := i + 1;
      }
    }

    /** Obj_objDelete_0: deletes one object. */
    method ObjDeleteOne(layer: Layer, buf: int)
      modifies this
      ensures forall l, b :: Object(l, b) ==
                if l == layer && b == buf then DeleteObject(old(Object(l, b))) else old(Object(l, b))
    {
      objects := objects[(layer, buf) := DeleteObject(Object(layer, buf))];
    }

    /** Obj_objDelete_1: deletes every object of `layer` in the INCLUSIVE
        range [min, max] (none when max < min); all others are unchanged. */
    method ObjDeleteRange(layer: Layer, min: int, max: int)
      modifies this
      ensures forall l, b :: Object(l, b) ==
                if l == layer && min <= b <= max then DeleteObject(old(Object(l, b))) else old(Object(l, b))
    {
      var end := max + 1;
      var i := min;
      while i < end
        invariant i == min || min < i <= end
        invariant forall l, b :: Object(l, b) ==
                    if l == layer && min <= b < i then DeleteObject(old(Object(l, b))) else old(Object(l, b))
      {
        objects := objects[(layer, i) := DeleteObject(Object(layer, i))];
        i := i + 1;
      }
    }

    /** Obj_setWipeCopyTo_0: sets the wipe-copy flag of one object. */
    method SetWipeCopyOne(layer: Layer, value: int, buf: int)
      modifies this
      ensures forall l, b :: Object(l, b) ==
                if l == layer && b == buf then SetWipeCopy(old(Object(l, b)), value) else old(Object(l, b))
    {
      objects := objects[(layer, buf) := SetWipeCopy(Object(layer, buf), value)];
    }

    /** Obj_setWipeCopyTo_1: sets the wipe-copy flag of the `count` objects
        starting at `min`, the HALF-OPEN range [min, min + count) (none when
        count <= 0); all others are unchanged. */
    method SetWipeCopyRange(layer: Layer, value: int, min: int, count: int)
      modifies this
      ensures forall l, b :: Object(l, b) ==
                if l == layer && min <= b < min + count then SetWipeCopy(old(Object(l, b)), value) else old(Object(l, b))
    {
      var maxObj := min + count;
      var i := min;
      while i < maxObj
        invariant i == min || min < i <= maxObj
        invariant forall l, b :: Object(l, b) ==
                    if l == layer && min <= b < i then SetWipeCopy(old(Object(l, b)), value) else old(Object(l, b))
      {
        objects := objects[(layer, i) := SetWipeCopy(Object(layer, i), value)];
        i := i + 1;
      }
    }
  }

  /** The operation struct (and its constructor arguments) an opcode is
      registered with. */
  datatype ObjOp =
    | CopyFgToBg                            // Obj_objCopyFgToBg
    | Copy(from: Layer, to: Layer)          // Obj_objCopy(from, to)
    | WipeCopyOne(layer: Layer, value: int) // Obj_setWipeCopyTo_0(layer, value)
    | WipeCopyRange(layer: Layer, value: int) // Obj_setWipeCopyTo_1(layer, value)
    | ClearOne(layer: Layer)                // Obj_objClear_0(layer)
    | ClearRange(layer: Layer)              // Obj_objClear_1(layer)
    | DeleteOne(layer: Layer)               // Obj_objDelete_0(layer)
    | DeleteRange(layer: Layer)             // Obj_objDelete_1(layer)

  /** One addOpcode entry: the diagnostic name and the operation. */
  datatype Registration = Registration(name: string, op: ObjOp)

  /** An RLModule: its name, type and number, and its opcode table keyed by
      (opcode, overload). */
  class RLModule {
    const moduleName: string
    const moduleType: int
    const moduleNumber: int
    var opcodes: map<(int, int), Registration>

    constructor (name: string, moduleType: int, moduleNumber: int)
      ensures this.moduleName == name && this.moduleType == moduleType && this.moduleNumber == moduleNumber
      ensures opcodes == map[]
    {
      this.moduleName := name;
      this.moduleType := moduleType;
      this.moduleNumber := moduleNumber;
      opcodes := map[];
    }

    /** The registration an (opcode, overload) pair read from the bytecode
        resolves to, or None when the module has no such operation. */
    function Lookup(opcode: int, overload: int): (r: Option<Registration>)
      reads this
      ensures r.Some? <==> (opcode, overload) in opcodes
      ensures r.Some? ==> r.value == opcodes[(opcode, overload)]
    {
      if (opcode, overload) in opcodes then Some(opcodes[(opcode, overload)]) else None
    }

    /** addOpcode: binds (opcode, overload) to the operation; a later
        registration of the same pair replaces the earlier one, and every
        other pair resolves as before. */
    method AddOpcode(opcode: int, overload: int, name: string, op: ObjOp)
      modifies this`opcodes
      ensures opcodes == old(opcodes)[(opcode, overload) := Registration(name, op)]
      ensures Lookup(opcode, overload) == Some(Registration(name, op))
      ensures forall o, v :: (o, v) != (opcode, overload) ==> Lookup(o, v) == old(Lookup(o, v))
    {
      opcodes := opcodes[(opcode, overload) := Registration(name, op)];
    }
  }

  /** The opcodes 4, 5, 10 and 11 that modules 61 and 62 both register, each
      against `layer`: opcode 4 sets wipe-copy to 1 and opcode 5 sets it to 0,
      10 clears and 11 deletes; overload 0 takes one buffer and overload 1 a
      range. */
  ghost predicate RegistersLayerOps(t: map<(int, int), Registration>, layer: Layer, clearName: string, deleteName: string)
  {
    && (4, 0) in t && t[(4, 0)] == Registration("objWipeCopyOn", WipeCopyOne(layer, 1))
    && (4, 1) in t && t[(4, 1)] == Registration("objWipeCopyOn", WipeCopyRange(layer, 1))
    && (5, 0) in t && t[(5, 0)] == Registration("objWipeCopyOff", WipeCopyOne(layer, 0))
    && (5, 1) in t && t[(5, 1)] == Registration("objWipeCopyOff", WipeCopyRange(layer, 0))
    && (10, 0) in t && t[(10, 0)] == Registration(clearName, ClearOne(layer))
    && (10, 1) in t && t[(10, 1)] == Registration(clearName, ClearRange(layer))
    && (11, 0) in t && t[(11, 0)] == Registration(deleteName, DeleteOne(layer))
    && (11, 1) in t && t[(11, 1)] == Registration(deleteName, DeleteRange(layer))
  }

  /** The (opcode, overload) pairs modules 61 and 62 register. */
  const ManagementKeys: set<(int, int)> :=
    {(2, 0), (3, 0), (4, 0), (4, 1), (5, 0), (5, 1), (10, 0), (10, 1), (11, 0), (11, 1)}

  /** ObjCopyFgToBg, module 60: opcode 2 copies a foreground buffer to the
      same background buffer. */
  method NewObjCopyFgToBg() returns (m: RLModule)
    ensures fresh(m) && m.moduleName == "ObjCopyFgToBg" && m.moduleType == 1 && m.moduleNumber == 60
    ensures m.opcodes.Keys == {(2, 0)}
    ensures m.opcodes[(2, 0)] == Registration("objCopyFgToBg", CopyFgToBg)
  {
    m := new RLModule("ObjCopyFgToBg", 1, 60);
    m.AddOpcode(2, 0, "objCopyFgToBg", CopyFgToBg);
  }

  /** ObjFgManagement, module 61: opcode 2 copies foreground to foreground,
      opcode 3 foreground to background, and opcodes 4, 5, 10 and 11 act on
      the foreground layer. */
  method NewObjFgManagement() returns (m: RLModule)
    ensures fresh(m) && m.moduleName == "ObjFgManagement" && m.moduleType == 1 && m.moduleNumber == 61
    ensures m.opcodes.Keys == ManagementKeys
    ensures m.opcodes[(2, 0)] == Registration("objCopy", Copy(FgLayer, FgLayer))
    ensures m.opcodes[(3, 0)] == Registration("objCopyToBg", Copy(FgLayer, BgLayer))
    ensures RegistersLayerOps(m.opcodes, FgLayer, "objClear", "objDelete")
  {
    m := new RLModule("ObjFgManagement", 1, 61);
    m.AddOpcode(2, 0, "objCopy", Copy(FgLayer, FgLayer));
    m.AddOpcode(3, 0, "objCopyToBg", Copy(FgLayer, BgLayer));

    m.AddOpcode(4, 0, "objWipeCopyOn", WipeCopyOne(FgLayer, 1));
    m.AddOpcode(4, 1, "objWipeCopyOn", WipeCopyRange(FgLayer, 1));
    m.AddOpcode(5, 0, "objWipeCopyOff", WipeCopyOne(FgLayer, 0));
    m.AddOpcode(5, 1, "objWipeCopyOff", WipeCopyRange(FgLayer, 0));

    m.AddOpcode(10, 0, "objClear", ClearOne(FgLayer));
    m.AddOpcode(10, 1, "objClear", ClearRange(FgLayer));
    m.AddOpcode(11, 0, "objDelete", DeleteOne(FgLayer));
    m.AddOpcode(11, 1, "objDelete", DeleteRange(FgLayer));
  }

  /** ObjBgManagement, module 62: opcode 2 copies background to foreground,
      opcode 3 background to background, and opcodes 4, 5, 10 and 11 act on
      the background layer. */
  method NewObjBgManagement() returns (m: RLModule)
    ensures fresh(m) && m.moduleName == "ObjBgManagement" && m.moduleType == 1 && m.moduleNumber == 62
    ensures m.opcodes.Keys == ManagementKeys
    ensures m.opcodes[(2, 0)] == Registration("objBgCopyToFg", Copy(BgLayer, FgLayer))
    ensures m.opcodes[(3, 0)] == Registration("objBgCopy", Copy(BgLayer, BgLayer))
    ensures RegistersLayerOps(m.opcodes, BgLayer, "objBgClear", "objBgDelete")
  {
    m := new RLModule("ObjBgManagement", 1, 62);
    m.AddOpcode(2, 0, "objBgCopyToFg", Copy(BgLayer, FgLayer));
    m.AddOpcode(3, 0, "objBgCopy", Copy(BgLayer, BgLayer));

    m.AddOpcode(4, 0, "objWipeCopyOn", WipeCopyOne(BgLayer, 1));
    m.AddOpcode(4, 1, "objWipeCopyOn", WipeCopyRange(BgLayer, 1));
    m.AddOpcode(5, 0, "objWipeCopyOff", WipeCopyOne(BgLayer, 0));
    m.AddOpcode(5, 1, "objWipeCopyOff", WipeCopyRange(BgLayer, 0));

    m.AddOpcode(10, 0, "objBgClear", ClearOne(BgLayer));
    m.AddOpcode(10, 1, "objBgClear", ClearRange(BgLayer));
    m.AddOpcode(11, 0, "objBgDelete", DeleteOne(BgLayer));
    m.AddOpcode(11, 1, "objBgDelete", DeleteRange(BgLayer));
  }

  /** The number of integer operands each operation struct takes:
      RLOp_Void_1 takes one, RLOp_Void_2 two. */
  function Arity(op: ObjOp): (n: nat)
    ensures n == 1 <==> op.CopyFgToBg? || op.WipeCopyOne? || op.ClearOne? || op.DeleteOne?
    ensures 1 <= n <= 2
  {
    match op
    case CopyFgToBg => 1
    case WipeCopyOne(_, _) => 1
    case ClearOne(_) => 1
    case DeleteOne(_) => 1
    case _ => 2
  }

  /** Runs a registered operation on its operands: the operator() of its
      operation struct. */
  method Invoke(g: GraphicsSystem, op: ObjOp, args: seq<int>)
    requires |args| == Arity(op)
    modifies g
    ensures op.CopyFgToBg? ==>
              forall l, b :: g.Object(l, b) ==
                if l == BgLayer && b == args[0] then old(g.Object(FgLayer, args[0])) else old(g.Object(l, b))
    ensures op.ClearOne? ==>
              forall l, b :: g.Object(l, b) ==
                if l == op.layer && b == args[0] then ClearObject(old(g.Object(l, b))) else old(g.Object(l, b))
    ensures op.DeleteOne? ==>
              forall l, b :: g.Object(l, b) ==
                if l == op.layer && b == args[0] then DeleteObject(old(g.Object(l, b))) else old(g.Object(l, b))
    ensures op.WipeCopyOne? ==>
              forall l, b :: g.Object(l, b) ==
                if l == op.layer && b == args[0] then SetWipeCopy(old(g.Object(l, b)), op.value) else old(g.Object(l, b))
    ensures op.ClearRange? ==>
              forall l, b :: g.Object(l, b) ==
                if l == op.layer && args[0] <= b <= args[1] then ClearObject(old(g.Object(l, b))) else old(g.Object(l, b))
    ensures op.DeleteRange? ==>
              forall l, b :: g.Object(l, b) ==
                if l == op.layer && args[0] <= b <= args[1] then DeleteObject(old(g.Object(l, b))) else old(g.Object(l, b))
    ensures op.WipeCopyRange? ==>
              forall l, b :: g.Object(l, b) ==
                if l == op.layer && args[0] <= b < args[0] + args[1] then SetWipeCopy(old(g.Object(l, b)), op.value)
                else old(g.Object(l, b))
    ensures op.Copy? ==>
              forall l, b :: g.Object(l, b) ==
                if l == op.to && b == args[1] then old(g.Object(op.from, args[0])) else old(g.Object(l, b))
  {
    match op
    case CopyFgToBg => g.ObjCopyFgToBg(args[0]);
    case Copy(from, to) => g.ObjCopy(from, to, args[0], args[1]);
    case WipeCopyOne(layer, value) => g.SetWipeCopyOne(layer, value, args[0]);
    case WipeCopyRange(layer, value) => g.SetWipeCopyRange(layer, value, args[0], args[1]);
    case ClearOne(layer) => g.ObjClearOne(layer, args[0]);
    case ClearRange(layer) => g.ObjClearRange(layer, args[0], args[1]);
    case DeleteOne(layer) => g.ObjDeleteOne(layer, args[0]);
    case DeleteRange(layer) => g.ObjDeleteRange(layer, args[0], args[1]);
  }

  /** Module 60's only opcode, resolved and run on buffer `buf`: the
      background object `buf` becomes the foreground object `buf`, and no
      other object changes. */
  method DispatchCopyFgToBg(g: GraphicsSystem, buf: int)
    modifies g
    ensures forall l, b :: g.Object(l, b) ==
              if l == BgLayer && b == buf then old(g.Object(FgLayer, buf)) else old(g.Object(l, b))
  {
    var m := NewObjCopyFgToBg();
    var reg := m.Lookup(2, 0);
    assert reg == Some(Registration("objCopyFgToBg", CopyFgToBg));
    Invoke(g, reg.value.op, [buf]);
  }

  /** The two range forms differ: opcode 10 overload 1 with operands (5, 7)
      clears buffers 5, 6 and 7, while opcode 4 overload 1 with the same
      operands sets wipe-copy on buffers 5 through 11. */
  method RangeFormsDiffer(g: GraphicsSystem)
    modifies g
    ensures g.Object(FgLayer, 7).cleared && g.Object(FgLayer, 8).cleared == old(g.Object(FgLayer, 8)).cleared
    ensures g.Object(FgLayer, 11).wipeCopy == 1 && g.Object(FgLayer, 12) == old(g.Object(FgLayer, 12))
  {
    var fg := NewObjFgManagement();
    var clear := fg.Lookup(10, 1);
    assert clear == Some(Registration("objClear", ClearRange(FgLayer)));
    Invoke(g, clear.value.op, [5, 7]);
    assert g.Object(FgLayer, 7).cleared && g.Object(FgLayer, 8) == old(g.Object(FgLayer, 8));
    ghost var mid8 := g.Object(FgLayer, 8);
    var wipeOn := fg.Lookup(4, 1);
    assert wipeOn == Some(Registration("objWipeCopyOn", WipeCopyRange(FgLayer, 1)));
    Invoke(g, wipeOn.value.op, [5, 7]);
    assert g.Object(FgLayer, 11).wipeCopy == 1 && g.Object(FgLayer, 12) == old(g.Object(FgLayer, 12));
    assert g.Object(FgLayer, 8) == SetWipeCopy(mid8, 1);
  }
}
