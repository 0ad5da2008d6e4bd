/** The `MojangsonWriter` of the `me.eisenwave.nbt.io` package. It prints
    like the `eisenwave` one but for two points: a compound is simple only
    when it also has at most three entries, and `writeCompound` and
    `writeList` are public and lay their container out whatever the
    `pretty` flag, which then only decides how the nested values print. */
module MeEisenwaveWriter {
  import opened Bytes
  import opened NBTType
  import opened NBTTag
  import opened NBTValues
  import opened Text
  import opened MojangsonLayout
  import opened MojangsonSteps

  /** `isSimple(NBTCompound)`: false for more than three entries, and
      otherwise false at the first value whose type is not primitive. */
  method IsSimpleCompound(es: seq<Entry>) returns (b: bool)
    ensures b == CompoundSimple(AtMostThree, es)
  {
    if |es| > 3 {
      return false;
    }
    var i := 0;
    while i < |es|
      invariant 0 <= i <= |es|
      invariant forall k :: 0 <= k < i ==> IsPrimitive(TypeOf(es[k].value))
    {
      if !IsPrimitive(TypeOf(es[i].value)) {
        return false;
      }
      i := i + 1;
    }
    return true;
  }

  class MojangsonWriter {
    const pretty: bool
    /** The rendering of what the writer prints without owning its source. */
    const renderers: Renderers
    var indent: int
    /** Everything handed to the underlying `Writer` so far. */
    var out: seq<char>

    /** The layout this writer follows. */
    const layout: Style := Style(pretty, AtMostThree, renderers)

    /** `MojangsonWriter(writer, pretty)`: nothing written, indent 0. */
    constructor(pretty: bool, renderers: Renderers)
      ensures this.pretty == pretty && this.renderers == renderers
      ensures indent == 0 && out == []
    {
      this.pretty := pretty;
      this.renderers := renderers;
      indent := 0;
      out := [];
    }

    /** `MojangsonWriter(writer)`: pretty printing disabled. */
    constructor Plain(renderers: Renderers)
      ensures !pretty && this.renderers == renderers
      ensures indent == 0 && out == []
    {
      pretty := false;
      this.renderers := renderers;
      indent := 0;
      out := [];
    }

    /** `write(String)` and `write(int)`: passed on to the underlying writer. */
    method Write(s: seq<char>)
      modifies this
      ensures out == old(out) + s && indent == old(indent)
    {
      out := out + s;
    }

    /** `indent()`: four spaces per level, nothing at level 0 or below. */
    method Indent()
      modifies this
      ensures out == old(out) + Indentation(indent) && indent == old(indent)
    {
      if indent == 1 {
        Write(INDENT);
        assert Repeat(INDENT, 1) == INDENT;
      } else if indent > 0 {
        var i := 0;
        while i < indent
          invariant 0 <= i <= indent == old(indent)
          invariant out == old(out) + Repeat(INDENT, i)
        {
          Write(INDENT);
          i := i + 1;
        }
      }
    }

    /** `endLn()`: a line separator, then the indentation of the current
        level. */
    method EndLn()
      modifies this
      ensures out == old(out) + LineEnd(indent) && indent == old(indent)
    {
      Write(NEWLINE);
      Indent();
    }

    /** `writeNamedTag(String, NBTTag)`. */
    method WriteNamedTag(name: seq<byte>, root: Tag)
      modifies this
      ensures out == old(out) + NamedText(layout, name, root, old(indent))
      ensures indent == old(indent)
    {
      ghost var before := out;
      if name != [] {
        Write(renderers.other(NBTString(name)));
        Write(":");
        if pretty {
          Write(" ");
        }
      }
      ghost var mid := out;
      assert mid == before + NamePrefix(layout, name);
      WriteTag(root);
      Concatenated(before, NamePrefix(layout, name), TagText(layout, root, indent), mid, out);
    }

    /** `writeNamedTag(NBTNamedTag)`. */
    method WriteNamed(nt: NamedTag)
      modifies this
      ensures out == old(out) + NamedText(layout, nt.name, nt.tag, old(indent))
      ensures indent == old(indent)
    {
      WriteNamedTag(nt.name, nt.tag);
    }

    /** `writeTag(NBTTag)`. Every type is END, primitive, an array, a
        compound or a list, so no type falls through without output. */
    method WriteTag(tag: Tag)
      modifies this
      ensures out == old(out) + TagText(layout, tag, old(indent))
      ensures !pretty || TypeOf(tag) == End || IsPrimitive(TypeOf(tag)) || IsArray(TypeOf(tag)) ==>
        out == old(out) + MsonText(tag, renderers.other)
      ensures indent == old(indent)
      decreases tag, 2
    {
      if !pretty {
        Write(MsonText(tag, renderers.other));
        return;
      }
      var ty := TypeOf(tag);
      LeavesAreMson(layout, tag, indent);
      if ty == End || IsPrimitive(ty) || IsArray(ty) {
        Write(MsonText(tag, renderers.other));
      } else if ty == Compound {
        WriteCompound(tag.entries);
      } else if ty == List {
        WriteList(tag.elementType, tag.elements);
      }
    }

    /** `writeCompound(NBTCompound)`: the compound's layout, at the current
        level, in either mode. */
    method WriteCompound(es: seq<Entry>)
      modifies this
      ensures out == old(out) + CompoundText(layout, es, old(indent))
      ensures indent == old(indent)
      decreases es, 1
    {
      ghost var ind, o0 := indent, out;
      Write("{");
      ghost var o1 := out;
      if es != [] {
        var simple := IsSimpleCompound(es);
        ghost var d, opening := ind, [];
        if !simple {
          indent := indent + 1;
          d, opening := ind + 1, LineEnd(ind + 1);
          EndLn();
        }
        ghost var o2 := out;
        assert o2 == o1 + opening && indent == d;
        WriteEntries(es, simple);
        ghost var o3 := out;
        if !simple {
          indent := indent - 1;
          EndLn();
        }
        CompoundWritten(layout, es, ind, d, simple, o0, o1, o2, o3, out);
      } else {
        EmptyContainers(layout, End, ind);
      }
      Write("}");
    }

    /** What the loops write between two parts: `", "` when simple,
        otherwise `","` and a line end. */
    method WriteSeparator(simple: bool)
      modifies this
      ensures out == old(out) + Separator(simple, indent) && indent == old(indent)
    {
      if simple {
        Write(", ");
      } else {
        Write(",");
        EndLn();
      }
    }

    /** The entries loop of `writeCompound`, at the level the entries are
        written at. */
    method WriteEntries(es: seq<Entry>, simple: bool)
      modifies this
      ensures out == old(out) + Join(EntryTexts(layout, es, old(indent)), Separator(simple, old(indent)))
      ensures indent == old(indent)
      decreases es, 0
    {
      ghost var parts := EntryTexts(layout, es, indent);
      ghost var sep := Separator(simple, indent);
      var first := true;
      var i := 0;
      while i < |es|
        invariant 0 <= i <= |es| && indent == old(indent) && first == (i == 0)
        invariant out == old(out) + Join(parts[..i], sep)
      {
        ghost var o, gap := out, [];
        if first {
          first := false;
        } else {
          WriteSeparator(simple);
          gap := sep;
        }
        assert out == o + gap;
        var key := KeyText(es[i].key, renderers);
        assert parts[i] == key + ": " + TagText(layout, es[i].value, indent);
        Write(key);
        Write(": ");
        WriteTag(es[i].value);
        EntryStep(parts, sep, i, old(out), o, gap, key, TagText(layout, es[i].value, indent), out);
        i := i + 1;
      }
      assert parts[..|es|] == parts;
    }

    /** `writeList(NBTList)`: the list's layout, at the current level, in
        either mode; simple when empty or of a primitive element type. */
    method WriteList(et: TagType, es: seq<Tag>)
      modifies this
      ensures out == old(out) + ListText(layout, et, es, old(indent))
      ensures indent == old(indent)
      decreases es, 1
    {
      ghost var ind, o0 := indent, out;
      Write("[");
      ghost var o1 := out;
      if es != [] {
        var simple := es == [] || IsPrimitive(et);
        ghost var d, opening := ind, [];
        if !simple {
          indent := indent + 1;
          d, opening := ind + 1, LineEnd(ind + 1);
          EndLn();
        }
        ghost var o2 := out;
        assert o2 == o1 + opening && indent == d;
        WriteElements(es, simple);
        ghost var o3 := out;
        if !simple {
          indent := indent - 1;
          EndLn();
        }
        ListWritten(layout, et, es, ind, d, simple, o0, o1, o2, o3, out);
      } else {
        EmptyContainers(layout, et, ind);
      }
      Write("]");
    }

    /** The iterator loop of `writeList`. */
    method WriteElements(es: seq<Tag>, simple: bool)
      modifies this
      ensures out == old(out) + Join(ElementTexts(layout, es, old(indent)), Separator(simple, old(indent)))
      ensures indent == old(indent)
      decreases es, 0
    {
      ghost var parts := ElementTexts(layout, es, indent);
      ghost var sep := Separator(simple, indent);
      var first := true;
      var i := 0;
      while i < |es|
        invariant 0 <= i <= |es| && indent == old(indent) && first == (i == 0)
        invariant out == old(out) + Join(parts[..i], sep)
      {
        ghost var o, gap := out, [];
        if first {
          first := false;
        } else {
          WriteSeparator(simple);
          gap := sep;
        }
        assert out == o + gap;
        WriteTag(es[i]);
        JoinStep(parts, sep, i, old(out), o, gap, out);
        i := i + 1;
      }
      assert parts[..|es|] == parts;
    }
  }
}
