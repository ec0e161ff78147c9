/** The device type editor: read blocks, data fields, and the checks before a definition is sent. */
module DeviceTypes {
  import opened Options
  import StableKey

  type Key = StableKey.Text

  datatype Block = Block(key: Key, named: bool, function_: int, start: int, count: int)

  datatype Kind = Bool | UInt16 | Int16 | UInt32 | Int32 | Float32 | HighByte | LowByte

  /** A field as the editor keeps it.  `ruled`: its rule for invalid values is well formed; `grouped`: its
      display group exists, and is chosen where one is required. */
  datatype Field = Field(key: Key, kind: Kind, block: Key, offset: int, bit: int, ruled: bool, grouped: bool,
      summary: bool)

  /** A number typed into a form; None stands for one that is not whole. */
  type Number = Option<int>

  datatype Draft = Draft(blocks: seq<Block>, fields: seq<Field>, stride: Number, step: int)

  predicate KeyOk(key: Key) {
    key != [] && forall i :: 0 <= i < |key| ==>
      97 <= key[i] as int <= 122 || 48 <= key[i] as int <= 57 || key[i] as int == 95 || key[i] as int == 45
  }

  function End(b: Block): int {
    b.start + b.count
  }

  function Registers(kind: Kind): int {
    if kind.UInt32? || kind.Int32? || kind.Float32? then 2 else 1
  }

  predicate IsByte(kind: Kind) {
    kind.HighByte? || kind.LowByte?
  }

  // ----- generated block keys

  const PREFIX: Key := [114, 101, 97, 100, 95, 98, 108, 111, 99, 107, 95]

  function Name(n: nat): Key {
    PREFIX + StableKey.Decimal(n)
  }

  lemma NamesDiffer(m: nat, n: nat)
    requires m != n
    ensures Name(m) != Name(n)
  {
    var colon := [StableKey.COLON];
    StableKey.ReadDigits(0, m, colon);
    StableKey.ReadDigits(0, n, colon);
    StableKey.ShiftedZero(m);
    StableKey.ShiftedZero(n);
    assert StableKey.ReadLength(colon, m) != StableKey.ReadLength(colon, n);
    assert Name(m)[|PREFIX|..] == StableKey.Decimal(m) && Name(n)[|PREFIX|..] == StableKey.Decimal(n);
  }

  function FirstFree(keys: set<Key>, n: nat): nat
    decreases |keys|
  {
    if Name(n) in keys then FirstFree(keys - {Name(n)}, n + 1) else n
  }

  lemma {:induction false} FirstFreeIsFree(keys: set<Key>, n: nat)
    ensures FirstFree(keys, n) >= n && Name(FirstFree(keys, n)) !in keys
    ensures forall m :: n <= m < FirstFree(keys, n) ==> Name(m) in keys
    decreases |keys|
  {
    if Name(n) in keys {
      FirstFreeIsFree(keys - {Name(n)}, n + 1);
      NamesDiffer(FirstFree(keys, n), n);
    }
  }

  lemma NameOk(n: nat)
    ensures KeyOk(Name(n))
  {
  }

  function Keys(blocks: seq<Block>): set<Key> {
    set i | 0 <= i < |blocks| :: blocks[i].key
  }

  // ----- the rules for blocks

  /** Two blocks of one function code that share a register. */
  predicate BlocksClash(b: Block, c: Block) {
    b.function_ == c.function_ && b.start < End(c) && c.start < End(b)
  }

  predicate BlockFine(b: Block) {
    KeyOk(b.key) && b.named && (b.function_ == 3 || b.function_ == 4) && 0 <= b.start <= 65535 && 1 <= b.count <= 125
        && End(b) <= 65536
  }

  predicate BlocksApart(blocks: seq<Block>) {
    forall i, j :: 0 <= i < j < |blocks| ==> blocks[i].key != blocks[j].key && !BlocksClash(blocks[i], blocks[j])
  }

  predicate Fits(blocks: seq<Block>, stride: Number) {
    stride.Some? && 0 < stride.value <= 65536 && forall i :: 0 <= i < |blocks| ==> End(blocks[i]) <= stride.value
  }

  function Find(blocks: seq<Block>, key: Key): (r: Option<nat>)
    ensures r.Some? ==> r.value < |blocks| && blocks[r.value].key == key
    ensures r.None? <==> forall i :: 0 <= i < |blocks| ==> blocks[i].key != key
  {
    if blocks == [] then None
    else if blocks[0].key == key then Some(0)
    else match Find(blocks[1..], key) case None => None case Some(i) => Some(i + 1)
  }

  // ----- the rules for fields

  /** The rule the field form checks. */
  predicate FieldsClash(f: Field, g: Field) {
    && f.block == g.block
    && f.offset < g.offset + Registers(g.kind) && g.offset < f.offset + Registers(f.kind)
    && var same := Registers(f.kind) == 1 && Registers(g.kind) == 1 && f.offset == g.offset;
       if same && f.kind.Bool? && g.kind.Bool? then f.bit == g.bit
       else !(same && f.kind != g.kind && IsByte(f.kind) && IsByte(g.kind))
  }

  datatype DataType = TBool | TUInt16 | TInt16 | TUInt32 | TInt32 | TFloat32
  datatype Parser = PBit | PUInt16 | PInt16 | PUInt32 | PInt32 | PFloat32 | PHigh | PLow

  function ProtocolType(kind: Kind): DataType {
    match kind
    case Bool => TBool
    case Int16 => TInt16
    case UInt32 => TUInt32
    case Int32 => TInt32
    case Float32 => TFloat32
    case UInt16 | HighByte | LowByte => TUInt16
  }

  function ParserOf(kind: Kind): Parser {
    match kind
    case Bool => PBit
    case UInt16 => PUInt16
    case Int16 => PInt16
    case UInt32 => PUInt32
    case Int32 => PInt32
    case Float32 => PFloat32
    case HighByte => PHigh
    case LowByte => PLow
  }

  /** The rule applied before sending, to what is sent: protocol types and parsers. */
  predicate SentClash(f: Field, g: Field) {
    && f.block == g.block
    && f.offset < g.offset + Registers(g.kind) && g.offset < f.offset + Registers(f.kind)
    && var same := Registers(f.kind) == 1 && Registers(g.kind) == 1 && f.offset == g.offset;
       var distinctBits := same && ProtocolType(f.kind).TBool? && ProtocolType(g.kind).TBool? && f.bit != g.bit;
       var bytePair := same && ParserOf(f.kind) != ParserOf(g.kind) &&
                       (ParserOf(f.kind).PHigh? || ParserOf(f.kind).PLow?)
                           && (ParserOf(g.kind).PHigh? || ParserOf(g.kind).PLow?);
       !distinctBits && !bytePair
  }

  /** The two rules, written over different vocabularies, are the same and do not depend on the order. */
  lemma ClashesAgree(f: Field, g: Field)
    ensures FieldsClash(f, g) <==> SentClash(f, g)
    ensures FieldsClash(f, g) <==> FieldsClash(g, f)
  {
  }

  /** The registers of its block, and the bits of them, that a field reads. */
  predicate Covers(f: Field, register: int) {
    f.offset <= register < f.offset + Registers(f.kind)
  }

  predicate Reads(f: Field, register: int, bit: int) {
    Covers(f, register) && 0 <= bit < 16 &&
    match f.kind
    case Bool => bit == f.bit
    case HighByte => bit >= 8
    case LowByte => bit < 8
    case _ => true
  }

  /** Fields of one block that do not clash have no bit in common; fields that clash have a register in common. */
  lemma ApartMeansDisjoint(f: Field, g: Field, register: int, bit: int)
    requires f.block == g.block
    ensures !FieldsClash(f, g) ==> !(Reads(f, register, bit) && Reads(g, register, bit))
    ensures FieldsClash(f, g) ==> exists r :: Covers(f, r) && Covers(g, r)
  {
    if FieldsClash(f, g) {
      assert Covers(f, if f.offset < g.offset then g.offset else f.offset);
    }
  }

  predicate FieldFine(f: Field, blocks: seq<Block>) {
    && KeyOk(f.key) && f.ruled
    && (f.kind.Bool? ==> 0 <= f.bit <= 15)
    && match Find(blocks, f.block)
       case None => false
       case Some(i) => 0 <= f.offset && f.offset + Registers(f.kind) <= blocks[i].count
  }

  predicate FieldsApart(fields: seq<Field>) {
    forall i, j :: 0 <= i < j < |fields| ==> fields[i].key != fields[j].key && !FieldsClash(fields[i], fields[j])
  }

  // ----- the invariant of the editor

  predicate Sound(d: Draft) {
    && d.blocks != []
    && (forall i :: 0 <= i < |d.blocks| ==> BlockFine(d.blocks[i])) && BlocksApart(d.blocks)
    && (forall i :: 0 <= i < |d.fields| ==> FieldFine(d.fields[i], d.blocks)) && FieldsApart(d.fields)
    && (d.step == 1 || d.step == 2)
    && (d.step == 2 ==> Fits(d.blocks, d.stride))
  }

  // ----- what the forms do

  datatype Refusal =
    | NoName | BadFunction | BadStart | BadCount | OutsideSpace | OutsideStride | Overlap | FieldOutside
    | BadKey | DuplicateKey | NoBlock | OutsideBlock | BadBit | BadValues | FieldOverlap

  datatype BlockForm = BlockForm(named: bool, function_: Number, start: Number, count: Number)

  /** The first complaint about the form alone. */
  function FormRefusal(stride: Number, form: BlockForm): Option<Refusal> {
    if !form.named then Some(NoName)
    else if form.function_ != Some(3) && form.function_ != Some(4) then Some(BadFunction)
    else if form.start.None? || form.start.value < 0 || form.start.value > 65535 then Some(BadStart)
    else if form.count.None? || form.count.value < 1 || form.count.value > 125 then Some(BadCount)
    else if form.start.value + form.count.value > 65536 then Some(OutsideSpace)
    else if stride.None? || stride.value <= 0 || form.start.value + form.count.value > stride.value
        then Some(OutsideStride)
    else None
  }

  /** The first complaint of all; `editing` is the block being edited, none for a new one. */
  function BlockRefusal(d: Draft, editing: Option<nat>, form: BlockForm, key: Key): Option<Refusal> {
    if FormRefusal(d.stride, form).Some? then FormRefusal(d.stride, form)
    else
      var b := Block(key, true, form.function_.value, form.start.value, form.count.value);
      if exists i :: 0 <= i < |d.blocks| && editing != Some(i) && BlocksClash(b, d.blocks[i]) then Some(Overlap)
      else if exists i ::
          0 <= i < |d.fields| && d.fields[i].block == key
          && d.fields[i].offset + Registers(d.fields[i].kind) > b.count then Some(FieldOutside)
      else None
  }

  function BlockKey(d: Draft, editing: Option<nat>): Key
    requires editing.Some? ==> editing.value < |d.blocks|
  {
    if editing.Some? then d.blocks[editing.value].key else Name(FirstFree(Keys(d.blocks), 1))
  }

  function Put<T>(s: seq<T>, editing: Option<nat>, x: T): seq<T>
    requires editing.Some? ==> editing.value < |s|
  {
    if editing.Some? then s[editing.value := x] else s + [x]
  }

  function BlockSaved(d: Draft, editing: Option<nat>, form: BlockForm): Draft
    requires editing.Some? ==> editing.value < |d.blocks|
  {
    var key := BlockKey(d, editing);
    if BlockRefusal(d, editing, form, key).Some? then d
    else d.(blocks := Put(d.blocks, editing,
        Block(key, true, form.function_.value, form.start.value, form.count.value)))
  }

  /** The block says what the form says. */
  predicate Filled(b: Block, form: BlockForm) {
    b.named && form.function_ == Some(b.function_) && form.start == Some(b.start) && form.count == Some(b.count)
  }

  predicate Removable(d: Draft, i: nat)
    requires i < |d.blocks|
  {
    |d.blocks| > 1 && forall j :: 0 <= j < |d.fields| ==> d.fields[j].block != d.blocks[i].key
  }

  function BlockDeleted(d: Draft, i: nat): Draft
    requires i < |d.blocks|
  {
    if Removable(d, i) then d.(blocks := Without(d.blocks, i)) else d
  }

  function Swapped(blocks: seq<Block>, i: nat, j: nat): seq<Block>
    requires i < |blocks| && j < |blocks|
  {
    blocks[i := blocks[j]][j := blocks[i]]
  }

  /** A block changes places with its neighbour above or below. */
  function BlockMoved(d: Draft, i: nat, up: bool): Draft
    requires i < |d.blocks|
  {
    var j := if up then i - 1 else i + 1;
    if 0 <= j < |d.blocks| then d.(blocks := Swapped(d.blocks, i, j)) else d
  }

  datatype FieldForm = FieldForm(key: Key, kind: Kind, block: Key, offset: Number, bit: Number,
    valued: bool, // enumeration, scale and rule pass their own checks
    grouped: bool, summary: bool)

  function FieldRefusal(d: Draft, editing: Option<nat>, form: FieldForm): Option<Refusal> {
    if !KeyOk(form.key) then Some(BadKey)
    else if exists i :: 0 <= i < |d.fields| && editing != Some(i) && d.fields[i].key == form.key then Some(DuplicateKey)
    else
      match Find(d.blocks, form.block)
      case None => Some(NoBlock)
      case Some(b) =>
        if form.offset.None? || form.offset.value < 0 || form.offset.value + Registers(form.kind) > d.blocks[b].count
            then Some(OutsideBlock)
        else if form.kind.Bool? && (form.bit.None? || form.bit.value < 0 || form.bit.value > 15) then Some(BadBit)
        else if !form.valued then Some(BadValues)
        else
          var f := Normalized(form);
          if exists i ::
              0 <= i < |d.fields| && editing != Some(i) && FieldsClash(d.fields[i], f) then Some(FieldOverlap)
          else None
  }

  function Normalized(form: FieldForm): Field {
    Field(form.key, form.kind, form.block, form.offset.GetOr(0), if form.kind.Bool? then form.bit.GetOr(-1)
        else -1, true, form.grouped, form.summary)
  }

  /** The field says what the form says. */
  predicate Says(f: Field, form: FieldForm) {
    && f.key == form.key && f.kind == form.kind && f.block == form.block && form.offset == Some(f.offset)
    && (f.kind.Bool? ==> form.bit == Some(f.bit)) && f.grouped == form.grouped && f.summary == form.summary
  }

  function FieldSaved(d: Draft, editing: Option<nat>, form: FieldForm): Draft
    requires editing.Some? ==> editing.value < |d.fields|
  {
    if FieldRefusal(d, editing, form).Some? then d else d.(fields := Put(d.fields, editing, Normalized(form)))
  }

  function FieldDeleted(d: Draft, i: nat): Draft
    requires i < |d.fields|
  {
    if |d.fields| <= 1 then d else d.(fields := d.fields[..i] + d.fields[i + 1..])
  }

  /** The checks before the second step. */
  predicate StepOneFine(d: Draft) {
    && d.blocks != []
    && d.stride.Some? && d.stride.value <= 65536 && d.stride.value >= MinimumStride(d.blocks)
    && (forall i :: 0 <= i < |d.blocks| ==>
          var b := d.blocks[i];
          (b.function_ == 3 || b.function_ == 4) && b.start >= 0 && 1 <= b.count <= 125 && End(b) <= d.stride.value)
    && forall i, j :: 0 <= i < j < |d.blocks| ==> !BlocksClash(d.blocks[i], d.blocks[j])
  }

  function MinimumStride(blocks: seq<Block>): int {
    if blocks == [] then 1
    else
      var rest := MinimumStride(blocks[..|blocks| - 1]);
      if End(blocks[|blocks| - 1]) > rest then End(blocks[|blocks| - 1]) else rest
  }

  /** `basics`: identifier, name and start register are filled in correctly. */
  function StepShown(d: Draft, target: int, validate: bool, basics: bool): Draft {
    if target == 2 && validate && !(basics && StepOneFine(d)) then d
    else d.(step := if target == 2 then 2 else 1)
  }

  datatype Event =
    | SaveBlock(blockEditing: Option<nat>, block: BlockForm) | DeleteBlock(index: nat) | MoveBlock(index: nat, up: bool)
    | SaveField(fieldEditing: Option<nat>, field: FieldForm) | DeleteField(index: nat)
    | EditStride(stride: Number)
    | Tab(target: int, basics: bool) | Forward(basics: bool) | Back

  /** A row's buttons exist while the row does; the stride can be typed into on the first step only. */
  predicate Possible(d: Draft, e: Event) {
    match e
    case SaveBlock(editing, _) => editing.Some? ==> editing.value < |d.blocks|
    case DeleteBlock(i) => i < |d.blocks|
    case MoveBlock(i, _) => i < |d.blocks|
    case SaveField(editing, _) => editing.Some? ==> editing.value < |d.fields|
    case DeleteField(i) => i < |d.fields|
    case EditStride(_) => d.step == 1
    case _ => true
  }

  function Next(d: Draft, e: Event): Draft
    requires Possible(d, e)
  {
    match e
    case SaveBlock(editing, form) => BlockSaved(d, editing, form)
    case DeleteBlock(i) => BlockDeleted(d, i)
    case MoveBlock(i, up) => BlockMoved(d, i, up)
    case SaveField(editing, form) => FieldSaved(d, editing, form)
    case DeleteField(i) => FieldDeleted(d, i)
    case EditStride(stride) => d.(stride := stride)
    case Tab(target, basics) => StepShown(d, target, d.step == 1, basics)
    case Forward(basics) => StepShown(d, 2, true, basics)
    case Back => StepShown(d, 1, false, false)
  }

  // ----- every action keeps the draft sound

  lemma FindsIt(blocks: seq<Block>, i: nat)
    requires BlocksApart(blocks) && i < |blocks|
    ensures Find(blocks, blocks[i].key) == Some(i)
  {
  }

  /** Where a sound field's block is. */
  lemma Home(f: Field, blocks: seq<Block>) returns (i: nat)
    requires FieldFine(f, blocks)
    ensures i < |blocks| && blocks[i].key == f.block && f.offset + Registers(f.kind) <= blocks[i].count
  {
    i := Find(blocks, f.block).value;
  }

  lemma FineAgain(f: Field, blocks: seq<Block>, later: seq<Block>, i: nat)
    requires FieldFine(f, blocks) && BlocksApart(later) && i < |later|
    requires later[i].key == f.block && f.offset + Registers(f.kind) <= later[i].count
    ensures FieldFine(f, later)
  {
    FindsIt(later, i);
  }

  /** A block that clashes with no other can take a place among them. */
  lemma PutApart(blocks: seq<Block>, editing: Option<nat>, b: Block)
    requires editing.Some? ==> editing.value < |blocks|
    requires BlocksApart(blocks)
    requires forall i :: 0 <= i < |blocks| && editing != Some(i) ==>
              blocks[i].key != b.key && !BlocksClash(b, blocks[i])
    ensures BlocksApart(Put(blocks, editing, b))
  {
    var later := Put(blocks, editing, b);
    forall i, j | 0 <= i < j < |later| ensures later[i].key != later[j].key && !BlocksClash(later[i], later[j]) {
      assert later[i] == (if editing == Some(i) then b else blocks[i]);
    }
  }

  lemma BlockSavedApart(d: Draft, editing: Option<nat>, form: BlockForm)
    requires Sound(d) && (editing.Some? ==> editing.value < |d.blocks|)
    requires BlockRefusal(d, editing, form, BlockKey(d, editing)).None?
    ensures var blocks := BlockSaved(d, editing, form).blocks;
            (forall i :: 0 <= i < |blocks| ==> BlockFine(blocks[i])) && BlocksApart(blocks)
  {
    FirstFreeIsFree(Keys(d.blocks), 1);
    NameOk(FirstFree(Keys(d.blocks), 1));
    var key := BlockKey(d, editing);
    assert editing.None? ==> forall i :: 0 <= i < |d.blocks| ==> d.blocks[i].key in Keys(d.blocks);
    PutApart(d.blocks, editing, Block(key, true, form.function_.value, form.start.value, form.count.value));
  }

  lemma BlockSavedKeeps(d: Draft, editing: Option<nat>, form: BlockForm)
    requires Sound(d) && (editing.Some? ==> editing.value < |d.blocks|)
    ensures Sound(BlockSaved(d, editing, form))
  {
    var key := BlockKey(d, editing);
    if BlockRefusal(d, editing, form, key).None? {
      BlockSavedApart(d, editing, form);
      var later := BlockSaved(d, editing, form).blocks;
      forall k | 0 <= k < |d.fields| ensures FieldFine(d.fields[k], later) {
        var i := Home(d.fields[k], d.blocks);
        assert editing == Some(i) ==> d.fields[k].block == key;
        FineAgain(d.fields[k], d.blocks, later, i);
      }
    }
  }

  function Without(blocks: seq<Block>, i: nat): seq<Block>
    requires i < |blocks|
  {
    blocks[..i] + blocks[i + 1..]
  }

  lemma WithoutApart(blocks: seq<Block>, i: nat)
    requires i < |blocks| && BlocksApart(blocks)
    ensures BlocksApart(Without(blocks, i))
  {
    var later := Without(blocks, i);
    assert forall j :: 0 <= j < |later| ==> later[j] == blocks[if j < i then j else j + 1];
  }

  lemma WithoutFields(d: Draft, i: nat)
    requires i < |d.blocks| && Removable(d, i) && BlocksApart(Without(d.blocks, i))
    requires forall k :: 0 <= k < |d.fields| ==> FieldFine(d.fields[k], d.blocks)
    ensures forall k :: 0 <= k < |d.fields| ==> FieldFine(d.fields[k], Without(d.blocks, i))
  {
    var later := Without(d.blocks, i);
    forall k | 0 <= k < |d.fields| ensures FieldFine(d.fields[k], later) {
      var j := Home(d.fields[k], d.blocks);
      var m := if j < i then j else j - 1;
      assert later[m] == d.blocks[j];
      FineAgain(d.fields[k], d.blocks, later, m);
    }
  }

  lemma BlockDeletedKeeps(d: Draft, i: nat)
    requires Sound(d) && i < |d.blocks|
    ensures Sound(BlockDeleted(d, i))
  {
    if Removable(d, i) {
      WithoutApart(d.blocks, i);
      WithoutFields(d, i);
      assert forall j :: 0 <= j < |Without(d.blocks, i)| ==> Without(d.blocks, i)[j] in d.blocks;
    }
  }

  lemma SwappedApart(blocks: seq<Block>, i: nat, j: nat)
    requires i < |blocks| && j < |blocks| && BlocksApart(blocks)
    ensures BlocksApart(Swapped(blocks, i, j))
  {
    var later := Swapped(blocks, i, j);
    forall k, m | 0 <= k < m < |later| ensures later[k].key != later[m].key && !BlocksClash(later[k], later[m]) {
      var a, b := if k == i then j else if k == j then i else k, if m == i then j else if m == j then i else m;
      assert later[k] == blocks[a] && later[m] == blocks[b];
      if a < b {
        assert !BlocksClash(blocks[a], blocks[b]);
      } else {
        assert !BlocksClash(blocks[b], blocks[a]);
      }
    }
  }

  lemma BlockMovedKeeps(d: Draft, i: nat, up: bool)
    requires Sound(d) && i < |d.blocks|
    ensures Sound(BlockMoved(d, i, up))
  {
    var j := if up then i - 1 else i + 1;
    if 0 <= j < |d.blocks| {
      SwappedApart(d.blocks, i, j);
      SwappedFields(d, i, j);
    }
  }

  lemma SwappedFields(d: Draft, i: nat, j: nat)
    requires i < |d.blocks| && j < |d.blocks| && i != j && BlocksApart(Swapped(d.blocks, i, j))
    requires forall k :: 0 <= k < |d.fields| ==> FieldFine(d.fields[k], d.blocks)
    ensures forall k :: 0 <= k < |d.fields| ==> FieldFine(d.fields[k], Swapped(d.blocks, i, j))
  {
    var later := Swapped(d.blocks, i, j);
    forall k | 0 <= k < |d.fields| ensures FieldFine(d.fields[k], later) {
      var h := Home(d.fields[k], d.blocks);
      var m := if h == i then j else if h == j then i else h;
      assert later[m] == d.blocks[h];
      FineAgain(d.fields[k], d.blocks, later, m);
    }
  }

  lemma PutFieldApart(fields: seq<Field>, editing: Option<nat>, f: Field)
    requires editing.Some? ==> editing.value < |fields|
    requires FieldsApart(fields)
    requires forall i :: 0 <= i < |fields| && editing != Some(i) ==>
              fields[i].key != f.key && !FieldsClash(fields[i], f)
    ensures FieldsApart(Put(fields, editing, f))
  {
    var later := Put(fields, editing, f);
    forall i, j | 0 <= i < j < |later| ensures later[i].key != later[j].key && !FieldsClash(later[i], later[j]) {
      assert later[i] == (if editing == Some(i) then f else if i < |fields| then fields[i] else f);
      if editing == Some(i) {
        ClashesAgree(fields[j], f);
      }
    }
  }

  lemma FieldSavedKeeps(d: Draft, editing: Option<nat>, form: FieldForm)
    requires Sound(d) && (editing.Some? ==> editing.value < |d.fields|)
    ensures Sound(FieldSaved(d, editing, form))
  {
    if FieldRefusal(d, editing, form).None? {
      PutFieldApart(d.fields, editing, Normalized(form));
    }
  }

  lemma InvKept(d: Draft, e: Event)
    requires Sound(d) && Possible(d, e)
    ensures Sound(Next(d, e))
  {
    match e
    case SaveBlock(editing, form) => BlockSavedKeeps(d, editing, form);
    case DeleteBlock(i) => BlockDeletedKeeps(d, i);
    case MoveBlock(i, up) => BlockMovedKeeps(d, i, up);
    case SaveField(editing, form) => FieldSavedKeeps(d, editing, form);
    case DeleteField(i) =>
    case EditStride(_) =>
    case Tab(target, basics) => StepKeeps(d, target, d.step == 1, basics);
    case Forward(basics) => StepKeeps(d, 2, true, basics);
    case Back =>
  }

  lemma StepKeeps(d: Draft, target: int, validate: bool, basics: bool)
    requires Sound(d) && (validate || target != 2 || d.step == 2)
    ensures Sound(StepShown(d, target, validate, basics))
  {
    MinimumIsPositive(d.blocks);
  }

  lemma {:induction false} MinimumIsPositive(blocks: seq<Block>)
    ensures MinimumStride(blocks) >= 1
    ensures forall i :: 0 <= i < |blocks| ==> End(blocks[i]) <= MinimumStride(blocks)
  {
    if blocks != [] {
      MinimumIsPositive(blocks[..|blocks| - 1]);
    }
  }

  /** In a sound draft the checks before the second step come down to a stride that covers every block. */
  lemma StepOneExactly(d: Draft)
    requires Sound(d)
    ensures StepOneFine(d) <==> Fits(d.blocks, d.stride)
  {
    MinimumIsPositive(d.blocks);
    MinimumReached(d.blocks);
  }

  lemma {:induction false} MinimumReached(blocks: seq<Block>)
    ensures MinimumStride(blocks) == 1 || exists i :: 0 <= i < |blocks| && End(blocks[i]) == MinimumStride(blocks)
  {
    if blocks != [] {
      var init, last := blocks[..|blocks| - 1], blocks[|blocks| - 1];
      MinimumReached(init);
      if MinimumStride(blocks) == MinimumStride(init) && MinimumStride(init) != 1 {
        var i :| 0 <= i < |init| && End(init[i]) == MinimumStride(init);
        assert End(blocks[i]) == MinimumStride(blocks);
      }
    }
  }

  predicate Runs(d: Draft, es: seq<Event>, e: Draft)
    decreases es
  {
    if es == [] then d == e else Possible(d, es[0]) && Runs(Next(d, es[0]), es[1..], e)
  }

  lemma {:induction false} RunKeeps(d: Draft, es: seq<Event>, e: Draft)
    requires Sound(d) && Runs(d, es, e)
    ensures Sound(e)
    decreases es
  {
    if es != [] {
      InvKept(d, es[0]);
      RunKeeps(Next(d, es[0]), es[1..], e);
    }
  }

  /** The draft a new device type starts from. */
  function NewDraft(): Draft {
    Draft([Block([100, 101, 102, 97, 117, 108, 116], true, 3, 0, 1)], [], Some(1), 1)
  }

  lemma NewDraftSound()
    ensures Sound(NewDraft())
  {
  }

  /** A register of the device, counted from its base address. */
  predicate ReadsDevice(d: Draft, i: nat, function_: int, register: int, bit: int)
    requires i < |d.fields|
  {
    match Find(d.blocks, d.fields[i].block)
    case None => false
    case Some(b) => d.blocks[b].function_ == function_ && Reads(d.fields[i], register - d.blocks[b].start, bit)
  }

  /** However the definition was edited, no two fields read the same bit of the device, not even through
      different blocks. */
  lemma FieldsNeverShareABit(d: Draft, es: seq<Event>, e: Draft, i: nat, j: nat, function_: int, register: int,
      bit: int)
    requires Sound(d) && Runs(d, es, e) && i < j < |e.fields|
    ensures !(ReadsDevice(e, i, function_, register, bit) && ReadsDevice(e, j, function_, register, bit))
  {
    RunKeeps(d, es, e);
    var f, g := e.fields[i], e.fields[j];
    var b := Home(f, e.blocks);
    var c := Home(g, e.blocks);
    FindsIt(e.blocks, b);
    FindsIt(e.blocks, c);
    if b == c {
      ApartMeansDisjoint(f, g, register - e.blocks[b].start, bit);
    } else {
      assert !BlocksClash(e.blocks[b], e.blocks[c]) && !BlocksClash(e.blocks[c], e.blocks[b]);
    }
  }

  // ----- the payload

  datatype Fault =
    | FormInvalid | NoBlocks | StrideInvalid | BlockInvalid | BlockKeyTwice | BlockOutsideStride | BlocksOverlap
    | GroupsInvalid | NoFields | FieldKeyInvalid | FieldKeyTwice | FieldBlockMissing | FieldGroupMissing
    | FieldOutsideBlock | FieldRuleInvalid | FieldsOverlap | NoSummary

  /** `basics` and `groups`: the form's own checks and those of the display groups. */
  predicate Has(d: Draft, basics: bool, groups: bool, fault: Fault) {
    match fault
    case FormInvalid => !basics
    case NoBlocks => d.blocks == []
    case StrideInvalid => d.stride.None? || d.stride.value <= 0 || d.stride.value > 65536
    case BlockInvalid => exists i :: 0 <= i < |d.blocks| && !BlockFine(d.blocks[i])
    case BlockKeyTwice => exists i, j :: 0 <= i < j < |d.blocks| && d.blocks[i].key == d.blocks[j].key
    case BlockOutsideStride => d.stride.Some? && exists i :: 0 <= i < |d.blocks| && End(d.blocks[i]) > d.stride.value
    case BlocksOverlap => exists i, j :: 0 <= i < j < |d.blocks| && BlocksClash(d.blocks[i], d.blocks[j])
    case GroupsInvalid => !groups
    case NoFields => d.fields == []
    case FieldKeyInvalid => exists i :: 0 <= i < |d.fields| && !KeyOk(d.fields[i].key)
    case FieldKeyTwice => exists i, j :: 0 <= i < j < |d.fields| && d.fields[i].key == d.fields[j].key
    case FieldBlockMissing => exists i :: 0 <= i < |d.fields| && Find(d.blocks, d.fields[i].block).None?
    case FieldGroupMissing => exists i :: 0 <= i < |d.fields| && !d.fields[i].grouped
    case FieldOutsideBlock => exists i :: 0 <= i < |d.fields| && OutsideHome(d.fields[i], d.blocks)
    case FieldRuleInvalid => exists i :: 0 <= i < |d.fields| && !d.fields[i].ruled
    case FieldsOverlap => exists i, j :: 0 <= i < j < |d.fields| && SentClash(d.fields[i], d.fields[j])
    case NoSummary => forall i :: 0 <= i < |d.fields| ==> !d.fields[i].summary
  }

  predicate OutsideHome(f: Field, blocks: seq<Block>) {
    match Find(blocks, f.block)
    case None => false
    case Some(b) => f.offset < 0 || f.offset + Registers(f.kind) > blocks[b].count
  }

  method CheckBlocks(d: Draft) returns (r: Option<Fault>)
    requires d.stride.Some?
    ensures r.Some? ==>
              Has(d, true, true, r.value) && (r.value.BlockInvalid? || r.value.BlockKeyTwice?
              || r.value.BlockOutsideStride?)
    ensures r.None? ==>
              !Has(d, true, true, BlockInvalid) && !Has(d, true, true, BlockKeyTwice)
              && !Has(d, true, true, BlockOutsideStride)
  {
    var keys: set<Key> := {};
    for i := 0 to |d.blocks|
      invariant keys == Keys(d.blocks[..i])
      invariant forall j :: 0 <= j < i ==> BlockFine(d.blocks[j]) && End(d.blocks[j]) <= d.stride.value
      invariant forall j, k :: 0 <= j < k < i ==> d.blocks[j].key != d.blocks[k].key
    {
      var b := d.blocks[i];
      if !KeyOk(b.key) {
        return Some(BlockInvalid);
      }
      if b.key in keys {
        return Some(BlockKeyTwice);
      }
      keys := keys + {b.key};
      if !BlockFine(b) {
        return Some(BlockInvalid);
      }
      if End(b) > d.stride.value {
        return Some(BlockOutsideStride);
      }
    }
    return None;
  }

  method CheckBlockPairs(d: Draft) returns (clash: bool)
    ensures clash <==> Has(d, true, true, BlocksOverlap)
  {
    for left := 0 to |d.blocks|
      invariant forall i, j :: 0 <= i < left && i < j < |d.blocks| ==> !BlocksClash(d.blocks[i], d.blocks[j])
    {
      for right := left + 1 to |d.blocks|
        invariant forall j :: left < j < right ==> !BlocksClash(d.blocks[left], d.blocks[j])
      {
        if BlocksClash(d.blocks[left], d.blocks[right]) {
          return true;
        }
      }
    }
    return false;
  }

  predicate OfOneField(fault: Fault) {
    fault.FieldKeyInvalid? || fault.FieldKeyTwice? || fault.FieldBlockMissing? || fault.FieldGroupMissing? ||
    fault.FieldOutsideBlock? || fault.FieldRuleInvalid?
  }

  /** One field passes every check that concerns it alone. */
  predicate Passes(f: Field, blocks: seq<Block>) {
    KeyOk(f.key) && f.ruled && f.grouped && Find(blocks, f.block).Some? && !OutsideHome(f, blocks)
  }

  method CheckFields(d: Draft) returns (r: Option<Fault>)
    ensures r.Some? ==> Has(d, true, true, r.value) && OfOneField(r.value)
    ensures r.None? ==> forall fault :: OfOneField(fault) ==> !Has(d, true, true, fault)
  {
    for i := 0 to |d.fields|
      invariant forall j :: 0 <= j < i ==> Passes(d.fields[j], d.blocks)
      invariant forall j, k :: 0 <= j < k < i ==> d.fields[j].key != d.fields[k].key
    {
      var f := d.fields[i];
      if !KeyOk(f.key) {
        return Some(FieldKeyInvalid);
      }
      if exists j :: 0 <= j < i && d.fields[j].key == f.key {
        return Some(FieldKeyTwice);
      }
      var block := Find(d.blocks, f.block);
      if block.None? {
        return Some(FieldBlockMissing);
      }
      if !f.grouped {
        return Some(FieldGroupMissing);
      }
      if f.offset < 0 || f.offset + Registers(f.kind) > d.blocks[block.value].count {
        return Some(FieldOutsideBlock);
      }
      if !f.ruled {
        return Some(FieldRuleInvalid);
      }
    }
    return None;
  }

  method CheckFieldPairs(d: Draft) returns (clash: bool)
    ensures clash <==> Has(d, true, true, FieldsOverlap)
  {
    for left := 0 to |d.fields|
      invariant forall i, j :: 0 <= i < left && i < j < |d.fields| ==> !SentClash(d.fields[i], d.fields[j])
    {
      for right := left + 1 to |d.fields|
        invariant forall j :: left < j < right ==> !SentClash(d.fields[left], d.fields[j])
      {
        if SentClash(d.fields[left], d.fields[right]) {
          return true;
        }
      }
    }
    return false;
  }

  /** The checks before sending: the first fault found, and none only if there is none. */
  method BuildPayload(d: Draft, basics: bool, groups: bool) returns (r: Option<Fault>)
    ensures r.Some? ==> Has(d, basics, groups, r.value)
    ensures r.None? ==> forall fault :: !Has(d, basics, groups, fault)
  {
    if !basics {
      return Some(FormInvalid);
    }
    if d.blocks == [] {
      return Some(NoBlocks);
    }
    if d.stride.None? || d.stride.value <= 0 || d.stride.value > 65536 {
      return Some(StrideInvalid);
    }
    r := CheckBlocks(d);
    if r.Some? {
      return;
    }
    var clash := CheckBlockPairs(d);
    if clash {
      return Some(BlocksOverlap);
    }
    if !groups {
      return Some(GroupsInvalid);
    }
    if d.fields == [] {
      return Some(NoFields);
    }
    r := CheckFields(d);
    if r.Some? {
      return;
    }
    clash := CheckFieldPairs(d);
    if clash {
      return Some(FieldsOverlap);
    }
    if !exists i :: 0 <= i < |d.fields| && d.fields[i].summary {
      return Some(NoSummary);
    }
    return None;
  }

  /** What the guarded editing leaves to complain about on the second step. */
  predicate Outstanding(fault: Fault) {
    fault.FormInvalid? || fault.GroupsInvalid? || fault.FieldGroupMissing? || fault.NoFields? || fault.NoSummary?
  }

  lemma NothingStructural(d: Draft, basics: bool, groups: bool, fault: Fault)
    requires Sound(d) && d.step == 2 && !Outstanding(fault)
    ensures !Has(d, basics, groups, fault)
  {
    match fault
    case FieldsOverlap =>
      assert forall f, g :: SentClash(f, g) ==> FieldsClash(f, g);
    case FieldBlockMissing =>
      assert forall i :: 0 <= i < |d.fields| ==> FieldFine(d.fields[i], d.blocks);
    case FieldOutsideBlock =>
      assert forall i :: 0 <= i < |d.fields| ==> FieldFine(d.fields[i], d.blocks);
    case _ =>
  }

  /** From any sound definition, after any editing: on the second step none of the checks on blocks, stride,
      field keys, references, ranges and overlaps can fail. */
  method SubmitAfter(d: Draft, ghost es: seq<Event>, e: Draft, basics: bool, groups: bool) returns (r: Option<Fault>)
    requires Sound(d) && Runs(d, es, e) && e.step == 2
    ensures r.Some? ==> Outstanding(r.value)
    ensures r.None? <==>
              basics && groups && (forall i :: 0 <= i < |e.fields| ==> e.fields[i].grouped)
              && exists i :: 0 <= i < |e.fields| && e.fields[i].summary
  {
    r := BuildPayload(e, basics, groups);
    RunKeeps(d, es, e);
    if r.Some? {
      if !Outstanding(r.value) {
        NothingStructural(e, basics, groups, r.value);
      }
    } else {
      assert !Has(e, basics, groups, FormInvalid) && !Has(e, basics, groups, GroupsInvalid);
      assert !Has(e, basics, groups, FieldGroupMissing) && !Has(e, basics, groups, NoSummary);
    }
  }

  // ----- the editor

  lemma FieldSavedMeans(d: Draft, editing: Option<nat>, form: FieldForm)
    requires editing.Some? ==> editing.value < |d.fields|
    ensures var fields := FieldSaved(d, editing, form).fields;
            if FieldRefusal(d, editing, form).Some? then fields == d.fields
            else if editing.Some? then
              && |fields| == |d.fields| && fields == d.fields[editing.value := fields[editing.value]]
              && Says(fields[editing.value], form)
            else |fields| == |d.fields| + 1 && fields[..|fields| - 1] == d.fields && Says(fields[|fields| - 1], form)
  {
  }

  lemma FirstFreeSkips(keys: set<Key>, rest: set<Key>, n: nat)
    requires Name(n) in rest && FirstFree(keys, 1) == FirstFree(rest, n)
    ensures FirstFree(keys, 1) == FirstFree(rest - {Name(n)}, n + 1)
  {
  }

  class Editor {
    var blocks: seq<Block>
    var fields: seq<Field>
    var stride: Number
    var step: int

    ghost function State(): Draft
      reads this
    {
      Draft(blocks, fields, stride, step)
    }

    /** The draft is sound: only what `Outstanding` lists can still be refused when it is sent. */
    ghost predicate Valid()
      reads this
    {
      Sound(State())
    }

    constructor (d: Draft)
      ensures State() == d
    {
      blocks, fields, stride, step := d.blocks, d.fields, d.stride, d.step;
    }

    /** The lowest number no block's key uses yet. */
    method GenerateBlockKey() returns (key: Key)
      ensures key == Name(FirstFree(Keys(blocks), 1))
    {
      var sequence := 1;
      var keys := Keys(blocks);
      ghost var rest := keys;
      while Name(sequence) in keys
        invariant FirstFree(keys, 1) == FirstFree(rest, sequence)
        invariant rest <= keys && forall k: nat :: k >= sequence ==> (Name(k) in rest <==> Name(k) in keys)
        decreases rest
      {
        FirstFreeSkips(keys, rest, sequence);
        forall k: nat | k > sequence ensures Name(k) != Name(sequence) {
          NamesDiffer(k, sequence);
        }
        rest := rest - {Name(sequence)};
        sequence := sequence + 1;
      }
      key := Name(sequence);
    }

    method Overlaps(b: Block, editing: Option<nat>) returns (found: bool)
      ensures found <==> exists i :: 0 <= i < |blocks| && editing != Some(i) && BlocksClash(b, blocks[i])
    {
      found := false;
      for i := 0 to |blocks|
        invariant found <==> exists j :: 0 <= j < i && editing != Some(j) && BlocksClash(b, blocks[j])
      {
        if editing != Some(i) && BlocksClash(b, blocks[i]) {
          found := true;
        }
      }
    }

    method LeavesFieldOutside(key: Key, count: int) returns (found: bool)
      ensures found <==>
                exists i ::
                    0 <= i < |fields| && fields[i].block == key && fields[i].offset + Registers(fields[i].kind) > count
    {
      found := false;
      for i := 0 to |fields|
        invariant found <==>
                  exists j ::
                      0 <= j < i && fields[j].block == key && fields[j].offset + Registers(fields[j].kind) > count
      {
        if fields[i].block == key && fields[i].offset + Registers(fields[i].kind) > count {
          found := true;
        }
      }
    }

    method CheckBlockForm(form: BlockForm) returns (refusal: Option<Refusal>)
      ensures refusal == FormRefusal(stride, form)
    {
      if !form.named {
        return Some(NoName);
      }
      if form.function_ != Some(3) && form.function_ != Some(4) {
        return Some(BadFunction);
      }
      if form.start.None? || form.start.value < 0 || form.start.value > 65535 {
        return Some(BadStart);
      }
      if form.count.None? || form.count.value < 1 || form.count.value > 125 {
        return Some(BadCount);
      }
      var end := form.start.value + form.count.value;
      if end > 65536 {
        return Some(OutsideSpace);
      }
      if stride.None? || stride.value <= 0 || end > stride.value {
        return Some(OutsideStride);
      }
      return None;
    }

    /** The guarded save, and what is left of the draft: sound, with the fields as they were. */
    method SaveBlock(editing: Option<nat>, form: BlockForm) returns (refusal: Option<Refusal>)
      requires Valid() && (editing.Some? ==> editing.value < |blocks|)
      modifies this
      ensures Valid() && fields == old(fields) && stride == old(stride) && step == old(step)
      ensures refusal.Some? ==> blocks == old(blocks)
      ensures refusal.None? && editing.Some? ==>
                |blocks| == |old(blocks)| && blocks == old(blocks)[editing.value := blocks[editing.value]]
                    && Filled(blocks[editing.value], form)
                       && blocks[editing.value].key == old(blocks)[editing.value].key
      ensures refusal.None? && editing.None? ==>
                |blocks| == |old(blocks)| + 1 && blocks[..|blocks| - 1] == old(blocks)
                    && Filled(blocks[|blocks| - 1], form)
      ensures State() == BlockSaved(old(State()), editing, form)
      ensures refusal == BlockRefusal(old(State()), editing, form, BlockKey(old(State()), editing))
    {
      BlockSavedKeeps(State(), editing, form);
      refusal := TryBlock(editing, form);
    }

    method TryBlock(editing: Option<nat>, form: BlockForm) returns (refusal: Option<Refusal>)
      requires editing.Some? ==> editing.value < |blocks|
      modifies this
      ensures State() == BlockSaved(old(State()), editing, form)
      ensures refusal == BlockRefusal(old(State()), editing, form, BlockKey(old(State()), editing))
    {
      refusal := CheckBlockForm(form);
      if refusal.Some? {
        return;
      }
      var key;
      if editing.Some? {
        key := blocks[editing.value].key;
      } else {
        key := GenerateBlockKey();
      }
      var block := Block(key, true, form.function_.value, form.start.value, form.count.value);
      var overlaps := Overlaps(block, editing);
      if overlaps {
        return Some(Overlap);
      }
      var outside := LeavesFieldOutside(key, form.count.value);
      if outside {
        return Some(FieldOutside);
      }
      blocks := Put(blocks, editing, block);
      refusal := None;
    }

    method DeleteBlock(index: nat)
      requires Valid() && index < |blocks|
      modifies this
      ensures Valid() && blocks != [] && fields == old(fields) && stride == old(stride) && step == old(step)
      ensures if |old(blocks)| > 1 && (forall f :: f in fields ==> f.block != old(blocks)[index].key)
              then blocks == old(blocks)[..index] + old(blocks)[index + 1..] else blocks == old(blocks)
      ensures State() == BlockDeleted(old(State()), index)
    {
      if |blocks| <= 1 {
        return;
      }
      for i := 0 to |fields|
        invariant State() == old(State())
        invariant forall j :: 0 <= j < i ==> fields[j].block != blocks[index].key
      {
        if fields[i].block == blocks[index].key {
          return;
        }
      }
      BlockDeletedKeeps(State(), index);
      blocks := blocks[..index] + blocks[index + 1..];
    }

    /** The block goes one place up or down if there is one, the neighbour takes its place, and nothing else
        changes. */
    method MoveBlock(index: nat, up: bool)
      requires Valid() && index < |blocks|
      modifies this
      ensures Valid() && multiset(blocks) == multiset(old(blocks)) && fields == old(fields) && stride == old(stride)
      ensures |blocks| == |old(blocks)|
      ensures up && index > 0 ==> blocks[index - 1] == old(blocks)[index] && blocks[index] == old(blocks)[index - 1]
      ensures !up && index + 1 < |blocks| ==>
                blocks[index + 1] == old(blocks)[index] && blocks[index] == old(blocks)[index + 1]
      ensures forall k :: 0 <= k < |blocks| && k != index && k != (if up then index - 1 else index + 1) ==>
                blocks[k] == old(blocks)[k]
      ensures (if up then index == 0 else index + 1 == |blocks|) ==> blocks == old(blocks)
      ensures State() == BlockMoved(old(State()), index, up)
    {
      BlockMovedKeeps(State(), index, up);
      var other := if up then index - 1 else index + 1;
      if 0 <= other < |blocks| {
        var neighbour := blocks[other];
        var moved := blocks[index];
        blocks := blocks[index := neighbour];
        blocks := blocks[other := moved];
      }
    }

    method SaveField(editing: Option<nat>, form: FieldForm) returns (refusal: Option<Refusal>)
      requires Valid() && (editing.Some? ==> editing.value < |fields|)
      modifies this
      ensures Valid() && blocks == old(blocks) && stride == old(stride) && step == old(step)
      ensures refusal.Some? ==> fields == old(fields)
      ensures refusal.None? && editing.Some? ==>
                |fields| == |old(fields)| && fields == old(fields)[editing.value := fields[editing.value]]
                    && Says(fields[editing.value], form)
      ensures refusal.None? && editing.None? ==>
                |fields| == |old(fields)| + 1 && fields[..|fields| - 1] == old(fields)
                    && Says(fields[|fields| - 1], form)
      ensures State() == FieldSaved(old(State()), editing, form)
      ensures refusal == FieldRefusal(old(State()), editing, form)
    {
      FieldSavedKeeps(State(), editing, form);
      FieldSavedMeans(State(), editing, form);
      refusal := TryField(editing, form);
    }

    method TryField(editing: Option<nat>, form: FieldForm) returns (refusal: Option<Refusal>)
      requires editing.Some? ==> editing.value < |fields|
      modifies this
      ensures State() == FieldSaved(old(State()), editing, form)
      ensures refusal == FieldRefusal(old(State()), editing, form)
    {
      if !KeyOk(form.key) {
        return Some(BadKey);
      }
      var duplicate := Duplicates(form.key, editing);
      if duplicate {
        return Some(DuplicateKey);
      }
      var selected := Find(blocks, form.block);
      if selected.None? {
        return Some(NoBlock);
      }
      if form.offset.None? || form.offset.value < 0
          || form.offset.value + Registers(form.kind) > blocks[selected.value].count {
        return Some(OutsideBlock);
      }
      if form.kind.Bool? && (form.bit.None? || form.bit.value < 0 || form.bit.value > 15) {
        return Some(BadBit);
      }
      if !form.valued {
        return Some(BadValues);
      }
      var field := Normalized(form);
      var overlap := OverlapsField(field, editing);
      if overlap {
        return Some(FieldOverlap);
      }
      fields := Put(fields, editing, field);
      refusal := None;
    }

    method Duplicates(key: Key, editing: Option<nat>) returns (found: bool)
      ensures found <==> exists i :: 0 <= i < |fields| && editing != Some(i) && fields[i].key == key
    {
      found := false;
      for i := 0 to |fields|
        invariant found <==> exists j :: 0 <= j < i && editing != Some(j) && fields[j].key == key
      {
        if editing != Some(i) && fields[i].key == key {
          found := true;
        }
      }
    }

    method OverlapsField(field: Field, editing: Option<nat>) returns (found: bool)
      ensures found <==> exists i :: 0 <= i < |fields| && editing != Some(i) && FieldsClash(fields[i], field)
    {
      found := false;
      for i := 0 to |fields|
        invariant found <==> exists j :: 0 <= j < i && editing != Some(j) && FieldsClash(fields[j], field)
      {
        if editing != Some(i) && FieldsClash(fields[i], field) {
          found := true;
        }
      }
    }

    method DeleteField(index: nat)
      requires Valid() && index < |fields|
      modifies this
      ensures Valid() && (old(fields) != [] ==> fields != []) && blocks == old(blocks)
      ensures |old(fields)| > 1 ==> fields == old(fields)[..index] + old(fields)[index + 1..]
      ensures State() == FieldDeleted(old(State()), index)
    {
      if |fields| > 1 {
        fields := fields[..index] + fields[index + 1..];
      }
    }

    method Minimum() returns (minimum: int)
      ensures minimum == MinimumStride(blocks)
    {
      minimum := 1;
      for i := 0 to |blocks|
        invariant minimum == MinimumStride(blocks[..i])
      {
        assert blocks[..i + 1][..i] == blocks[..i];
        if End(blocks[i]) > minimum {
          minimum := End(blocks[i]);
        }
      }
      assert blocks[..|blocks|] == blocks;
    }

    method ValidateStepOne(basics: bool) returns (ok: bool)
      ensures ok <==> basics && StepOneFine(State())
    {
      if !basics || blocks == [] {
        return false;
      }
      var minimum := Minimum();
      if stride.None? || stride.value < minimum || stride.value > 65536 {
        return false;
      }
      for i := 0 to |blocks|
        invariant forall j :: 0 <= j < i ==>
          (blocks[j].function_ == 3 || blocks[j].function_ == 4) && blocks[j].start >= 0
              && 1 <= blocks[j].count <= 125 && End(blocks[j]) <= stride.value
      {
        var b := blocks[i];
        if (b.function_ != 3 && b.function_ != 4) || b.start < 0 || b.count < 1 || b.count > 125
            || End(b) > stride.value {
          return false;
        }
      }
      var clash := CheckBlockPairs(Draft(blocks, fields, stride, step));
      return !clash;
    }

    /** Whoever is on the second step has a stride that covers every block, and got there through the
        validation unless already there. */
    method ShowStep(target: int, validate: bool, basics: bool)
      requires Valid() && (target != 2 || validate || step == 2)
      modifies this
      ensures Valid() && (step == 2 ==> Fits(blocks, stride))
      ensures step == 2 && old(step) == 1 ==> basics && StepOneFine(old(State()))
      ensures if target != 2 then step == 1 else step == 2 || (validate && !(basics && Fits(blocks, stride)))
      ensures State() == StepShown(old(State()), target, validate, basics)
    {
      StepKeeps(State(), target, validate, basics);
      StepOneExactly(State());
      if target == 2 && validate {
        var ok := ValidateStepOne(basics);
        if !ok {
          return;
        }
      }
      step := if target == 2 then 2 else 1;
    }
  }
}
