/** What the device type editor refuses: exactly what would leave the draft unsound. */
module EditorRefusals {
  import opened Options
  import opened DeviceTypes

  // ----- clashes

  ghost predicate ShareABit(f: Field, g: Field) {
    exists register, bit :: Reads(f, register, bit) && Reads(g, register, bit)
  }

  predicate BitOk(f: Field) {
    f.kind.Bool? ==> 0 <= f.bit <= 15
  }

  /** A single bit and half of a register do not go together in one register, shared bit or not. */
  predicate MixesBitAndByte(f: Field, g: Field) {
    f.offset == g.offset && ((f.kind.Bool? && IsByte(g.kind)) || (IsByte(f.kind) && g.kind.Bool?))
  }

  lemma SharesAt(f: Field, g: Field, register: int, bit: int)
    requires Reads(f, register, bit) && Reads(g, register, bit)
    ensures ShareABit(f, g)
  {
  }

  /** Fields of one block clash exactly when they read a bit in common or mix a bit with a byte. */
  lemma ClashesExactly(f: Field, g: Field)
    requires f.block == g.block && BitOk(f) && BitOk(g)
    ensures FieldsClash(f, g) <==> ShareABit(f, g) || MixesBitAndByte(f, g)
  {
    if FieldsClash(f, g) && !MixesBitAndByte(f, g) {
      var r := if f.offset < g.offset then g.offset else f.offset;
      var bit := if f.kind.Bool? then f.bit else if g.kind.Bool? then g.bit
                 else if f.kind.HighByte? || g.kind.HighByte? then 8 else 0;
      SharesAt(f, g, r, bit);
    }
    if ShareABit(f, g) {
      var r, bit :| Reads(f, r, bit) && Reads(g, r, bit);
      ApartMeansDisjoint(f, g, r, bit);
    }
  }

  // ----- blocks

  /** The form is filled in, and the stride covers what it says. */
  predicate Complete(stride: Number, form: BlockForm) {
    && form.named && form.function_.Some? && form.start.Some? && form.count.Some?
    && stride.Some? && form.start.value + form.count.value <= stride.value
  }

  function WithBlock(d: Draft, editing: Option<nat>, form: BlockForm): Draft
    requires (editing.Some? ==> editing.value < |d.blocks|) && Complete(d.stride, form)
  {
    d.(blocks := Put(d.blocks, editing,
        Block(BlockKey(d, editing), true, form.function_.value, form.start.value, form.count.value)))
  }

  /** A block is refused exactly when the form is incomplete or the draft with it would be unsound. */
  lemma BlockRefusedExactly(d: Draft, editing: Option<nat>, form: BlockForm)
    requires Sound(d) && (editing.Some? ==> editing.value < |d.blocks|)
    ensures BlockRefusal(d, editing, form, BlockKey(d, editing)).None?
       <==> Complete(d.stride, form) && Sound(WithBlock(d, editing, form))
  {
    if BlockRefusal(d, editing, form, BlockKey(d, editing)).None? {
      BlockSavedKeeps(d, editing, form);
      assert BlockSaved(d, editing, form) == WithBlock(d, editing, form);
    } else if Complete(d.stride, form) && Sound(WithBlock(d, editing, form)) {
      SoundIsAccepted(d, editing, form);
      assert false;
    }
  }

  lemma SoundIsAccepted(d: Draft, editing: Option<nat>, form: BlockForm)
    requires Sound(d) && (editing.Some? ==> editing.value < |d.blocks|)
    requires Complete(d.stride, form) && Sound(WithBlock(d, editing, form))
    ensures BlockRefusal(d, editing, form, BlockKey(d, editing)).None?
  {
    var later := WithBlock(d, editing, form).blocks;
    var at := if editing.Some? then editing.value else |d.blocks|;
    var b := later[at];
    assert BlockFine(b);
    forall i | 0 <= i < |d.blocks| && editing != Some(i) ensures !BlocksClash(b, d.blocks[i]) {
      assert later[i] == d.blocks[i];
      assert if i < at then !BlocksClash(later[i], later[at]) else !BlocksClash(later[at], later[i]);
    }
    forall k | 0 <= k < |d.fields| && d.fields[k].block == b.key
      ensures d.fields[k].offset + Registers(d.fields[k].kind) <= b.count
    {
      assert FieldFine(d.fields[k], later);
      FindsIt(later, at);
    }
  }

  /** A block can be deleted exactly when the draft without it is sound. */
  lemma RemovableExactly(d: Draft, i: nat)
    requires Sound(d) && i < |d.blocks|
    ensures Removable(d, i) <==> Sound(d.(blocks := Without(d.blocks, i)))
  {
    var later := Without(d.blocks, i);
    if Removable(d, i) {
      BlockDeletedKeeps(d, i);
    } else if |d.blocks| > 1 {
      var j :| 0 <= j < |d.fields| && d.fields[j].block == d.blocks[i].key;
      forall k | 0 <= k < |later| ensures later[k].key != d.fields[j].block {
        assert later[k] == d.blocks[if k < i then k else k + 1];
      }
      assert !FieldFine(d.fields[j], later);
    }
  }

  // ----- fields

  /** Everything the form asks for is there, and enumeration, scale and rule pass. */
  predicate Given(form: FieldForm) {
    form.offset.Some? && (form.kind.Bool? ==> form.bit.Some?) && form.valued
  }

  /** A field is refused exactly when the form is incomplete or the draft with it would be unsound. */
  lemma FieldRefusedExactly(d: Draft, editing: Option<nat>, form: FieldForm)
    requires Sound(d) && (editing.Some? ==> editing.value < |d.fields|)
    ensures FieldRefusal(d, editing, form).None?
       <==> Given(form) && Sound(d.(fields := Put(d.fields, editing, Normalized(form))))
  {
    if FieldRefusal(d, editing, form).None? {
      FieldSavedKeeps(d, editing, form);
    } else if Given(form) && Sound(d.(fields := Put(d.fields, editing, Normalized(form)))) {
      SoundFieldIsAccepted(d, editing, form);
      assert false;
    }
  }

  lemma SoundFieldIsAccepted(d: Draft, editing: Option<nat>, form: FieldForm)
    requires Sound(d) && (editing.Some? ==> editing.value < |d.fields|)
    requires Given(form) && Sound(d.(fields := Put(d.fields, editing, Normalized(form))))
    ensures FieldRefusal(d, editing, form).None?
  {
    var f, later := Normalized(form), Put(d.fields, editing, Normalized(form));
    var at := if editing.Some? then editing.value else |d.fields|;
    assert later[at] == f && FieldFine(f, d.blocks);
    ApartFromOthers(d.fields, editing, f);
  }

  lemma ApartFromOthers(fields: seq<Field>, editing: Option<nat>, f: Field)
    requires (editing.Some? ==> editing.value < |fields|) && FieldsApart(Put(fields, editing, f))
    ensures forall i :: 0 <= i < |fields| && editing != Some(i) ==> fields[i].key != f.key && !FieldsClash(fields[i], f)
  {
    var later := Put(fields, editing, f);
    var at := if editing.Some? then editing.value else |fields|;
    forall i | 0 <= i < |fields| && editing != Some(i) ensures fields[i].key != f.key && !FieldsClash(fields[i], f) {
      assert later[i] == fields[i] && later[at] == f;
      ClashesAgree(fields[i], f);
    }
  }
}
