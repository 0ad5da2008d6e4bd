/** The `MojangsonWriter` of the `eisenwave.nbt.io` package: a writer with
    a fixed `pretty` flag and a mutable indent level that prints tag trees
    in Mojangson. Each method is proved to append exactly the text the
    layout functions give, at the indent level it starts from, and to leave
    that level as it found it. */
module EisenwaveWriter {
  import opened Bytes
  import opened NBTType
  import opened NBTTag
  import opened NBTValues
  import opened Text
  import opened MojangsonLayout
  import opened MojangsonSteps

  /** `isPrimitive(NBTCompound)`: true when empty, and otherwise false at
      the first value whose type is not primitive. */
  method IsPrimitiveCompound(es: seq<Entry>) returns (b: bool)
    ensures b == CompoundSimple(AllPrimitive, es)
  {
    if es == [] {
      return true;
    }
    var i := 0;
    while i < |es|
      invariant 0 <= i <= |es|
      invariant forall k :: 0 <= k < i ==> IsPrimitive(TypeOf(es[k].value))
    {
      if !IsPrimitive(TypeOf(es[i].value)) {
        return false;
      }
      i := i + 1;
    }
    return true;
  }

  class MojangsonWriter {
    const pretty: bool
    /** The rendering of what the writer prints without owning its source. */
    const renderers: Renderers
    var indent: int
    /** Everything handed to the underlying `Writer` so far. */
    var out: seq<char>

    /** The layout this writer follows. */
    const layout: Style := Style(pretty, AllPrimitive, renderers)

    /** `MojangsonWriter(writer, pretty)`: nothing written, indent 0. */
    constructor(pretty: bool, renderers: Renderers)
      ensures this.pretty == pretty && this.renderers == renderers
      ensures indent == 0 && out == []
    {
      this.pretty := pretty;
      this.renderers := renderers;
      indent := 0;
      out := [];
    }

    /** `MojangsonWriter(writer)`: pretty printing disabled. */
    constructor Plain(renderers: Renderers)
      ensures !pretty && this.renderers == renderers
      ensures indent == 0 && out == []
    {
      pretty := false;
      this.renderers := renderers;
      indent := 0;
      out := [];
    }

    /** `write(String)` and `write(int)`: passed on to the underlying writer. */
    method Write(s: seq<char>)
      modifies this
      ensures out == old(out) + s && indent == old(indent)
    {
      out := out + s;
    }

    /** `indent()`: four spaces per level, nothing at level 0 or below. */
    method Indent()
      modifies this
      ensures out == old(out) + Indentation(indent) && indent == old(indent)
    {
      if indent == 1 {
        Write(INDENT);
        assert Repeat(INDENT, 1) == INDENT;
      } else if indent > 0 {
        var i := 0;
        while i < indent
          invariant 0 <= i <= indent == old(indent)
          invariant out == old(out) + Repeat(INDENT, i)
        {
          Write(INDENT);
          i := i + 1;
        }
      }
    }

    /** `endLn()`: a line separator, then the indentation of the current
        level. */
    method EndLn()
      modifies this
      ensures out == old(out) + LineEnd(indent) && indent == old(indent)
    {
      Write(NEWLINE);
      Indent();
    }

    /** `writeNamedTag(String, NBTTag)`. */
    method WriteNamedTag(name: seq<byte>, root: Tag)
      modifies this
      ensures out == old(out) + NamedText(layout, name, root, old(indent))
      ensures indent == old(indent)
    {
      ghost var before := out;
      if name != [] {
        Write(renderers.other(NBTString(name)));
        Write(":");
        if pretty {
          Write(" ");
        }
      }
      ghost var mid := out;
      assert mid == before + NamePrefix(layout, name);
      WriteTag(root);
      Concatenated(before, NamePrefix(layout, name), TagText(layout, root, indent), mid, out);
    }

    /** `writeNamedTag(NBTNamedTag)`. */
    method WriteNamed(nt: NamedTag)
      modifies this
      ensures out == old(out) + NamedText(layout, nt.name, nt.tag, old(indent))
      ensures indent == old(indent)
    {
      WriteNamedTag(nt.name, nt.tag);
    }

    /** `writeTag(NBTTag)`. Every type is END, primitive, an array, a
        compound or a list, so the `AssertionError` branch is dead. */
    method WriteTag(tag: Tag)
      modifies this
      ensures out == old(out) + TagText(layout, tag, old(indent))
      ensures !pretty || TypeOf(tag) == End || IsPrimitive(TypeOf(tag)) || IsArray(TypeOf(tag)) ==>
        out == old(out) + MsonText(tag, renderers.other)
      ensures indent == old(indent)
      decreases tag, 2
    {
      if !pretty {
        Write(MsonText(tag, renderers.other));
        return;
      }
      var ty := TypeOf(tag);
      LeavesAreMson(layout, tag, indent);
      if ty == End || IsPrimitive(ty) || IsArray(ty) {
        Write(MsonText(tag, renderers.other));
      } else if ty == Compound {
        WriteCompound(tag);
      } else if ty == List {
        WriteList(tag);
      } else {
        assert false;
      }
    }

    /** `writeCompound(NBTCompound)`: checks `pretty` itself, then either
        keeps all entries on one line or puts each on its own line one
        level deeper. */
    method WriteCompound(tag: Tag)
      requires tag.NBTCompound?
      modifies this
      ensures out == old(out) + TagText(layout, tag, old(indent))
      ensures !pretty ==> out == old(out) + MsonText(tag, renderers.other)
      ensures indent == old(indent)
      decreases tag, 1
    {
      if !pretty {
        Write(MsonText(tag, renderers.other));
        return;
      }
      var es := tag.entries;
      ghost var ind, o0 := indent, out;
      Write("{");
      ghost var o1 := out;
      if es != [] {
        var simple := IsPrimitiveCompound(es);
        ghost var d, opening := ind, [];
        if !simple {
          indent := indent + 1;
          d, opening := ind + 1, LineEnd(ind + 1);
          EndLn();
        }
        ghost var o2 := out;
        assert o2 == o1 + opening && indent == d;
        if simple {
          WriteEntriesInline(es);
        } else {
          WriteEntriesOnLines(es);
        }
        ghost var o3 := out;
        if !simple {
          indent := indent - 1;
          EndLn();
        }
        CompoundWritten(layout, es, ind, d, simple, o0, o1, o2, o3, out);
      } else {
        EmptyContainers(layout, End, ind);
      }
      assert out + "}" == o0 + CompoundText(layout, es, ind) && indent == ind;
      Write("}");
      PrettyContainers(layout, tag, ind);
    }

    /** The entries loop of `writeCompound` for a simple compound: `", "` between
        entries. */
    method WriteEntriesInline(es: seq<Entry>)
      modifies this
      ensures out == old(out) + Join(EntryTexts(layout, es, old(indent)), ", ")
      ensures indent == old(indent)
      decreases es, 0
    {
      ghost var parts := EntryTexts(layout, es, indent);
      ghost var sep := ", ";
      var first := true;
      var i := 0;
      while i < |es|
        invariant 0 <= i <= |es| && indent == old(indent) && first == (i == 0)
        invariant out == old(out) + Join(parts[..i], sep)
      {
        ghost var o, gap := out, [];
        if first {
          first := false;
        } else {
          Write(", ");
          gap := sep;
        }
        assert out == o + gap;
        var key := KeyText(es[i].key, renderers);
        assert parts[i] == key + ": " + TagText(layout, es[i].value, indent);
        Write(key);
        Write(": ");
        WriteTag(es[i].value);
        EntryStep(parts, sep, i, old(out), o, gap, key, TagText(layout, es[i].value, indent), out);
        i := i + 1;
      }
      assert parts[..|es|] == parts;
    }

    /** The entries loop of `writeCompound` for any other compound: `","` and
        a line end between entries. */
    method WriteEntriesOnLines(es: seq<Entry>)
      modifies this
      ensures out == old(out) + Join(EntryTexts(layout, es, old(indent)), "," + LineEnd(old(indent)))
      ensures indent == old(indent)
      decreases es, 0
    {
      ghost var parts := EntryTexts(layout, es, indent);
      ghost var sep := "," + LineEnd(indent);
      var first := true;
      var i := 0;
      while i < |es|
        invariant 0 <= i <= |es| && indent == old(indent) && first == (i == 0)
        invariant out == old(out) + Join(parts[..i], sep)
      {
        ghost var o, gap := out, [];
        if first {
          first := false;
        } else {
          Write(",");
          EndLn();
          gap := sep;
        }
        assert out == o + gap;
        var key := KeyText(es[i].key, renderers);
        assert parts[i] == key + ": " + TagText(layout, es[i].value, indent);
        Write(key);
        Write(": ");
        WriteTag(es[i].value);
        EntryStep(parts, sep, i, old(out), o, gap, key, TagText(layout, es[i].value, indent), out);
        i := i + 1;
      }
      assert parts[..|es|] == parts;
    }

    /** `writeList(NBTList)`: the same layout for the elements, simple when
        empty or when the element type is primitive. */
    method WriteList(tag: Tag)
      requires tag.NBTList?
      modifies this
      ensures out == old(out) + TagText(layout, tag, old(indent))
      ensures !pretty ==> out == old(out) + MsonText(tag, renderers.other)
      ensures indent == old(indent)
      decreases tag, 1
    {
      if !pretty {
        Write(MsonText(tag, renderers.other));
        return;
      }
      var es := tag.elements;
      ghost var ind, o0 := indent, out;
      Write("[");
      ghost var o1 := out;
      if es != [] {
        var simple := es == [] || IsPrimitive(tag.elementType);
        ghost var d, opening := ind, [];
        if !simple {
          indent := indent + 1;
          d, opening := ind + 1, LineEnd(ind + 1);
          EndLn();
        }
        ghost var o2 := out;
        assert o2 == o1 + opening && indent == d;
        if simple {
          WriteElementsInline(es);
        } else {
          WriteElementsOnLines(es);
        }
        ghost var o3 := out;
        if !simple {
          indent := indent - 1;
          EndLn();
        }
        ListWritten(layout, tag.elementType, es, ind, d, simple, o0, o1, o2, o3, out);
      } else {
        EmptyContainers(layout, tag.elementType, ind);
      }
      assert out + "]" == o0 + ListText(layout, tag.elementType, es, ind) && indent == ind;
      Write("]");
      PrettyContainers(layout, tag, ind);
    }

    /** The elements loop of `writeList` for a simple list. */
    method WriteElementsInline(es: seq<Tag>)
      modifies this
      ensures out == old(out) + Join(ElementTexts(layout, es, old(indent)), ", ")
      ensures indent == old(indent)
      decreases es, 0
    {
      ghost var parts := ElementTexts(layout, es, indent);
      ghost var sep := ", ";
      var first := true;
      var i := 0;
      while i < |es|
        invariant 0 <= i <= |es| && indent == old(indent) && first == (i == 0)
        invariant out == old(out) + Join(parts[..i], sep)
      {
        ghost var o, gap := out, [];
        if first {
          first := false;
        } else {
          Write(", ");
          gap := sep;
        }
        assert out == o + gap;
        WriteTag(es[i]);
        JoinStep(parts, sep, i, old(out), o, gap, out);
        i := i + 1;
      }
      assert parts[..|es|] == parts;
    }

    /** The elements loop of `writeList` for any other list. */
    method WriteElementsOnLines(es: seq<Tag>)
      modifies this
      ensures out == old(out) + Join(ElementTexts(layout, es, old(indent)), "," + LineEnd(old(indent)))
      ensures indent == old(indent)
      decreases es, 0
    {
      ghost var parts := ElementTexts(layout, es, indent);
      ghost var sep := "," + LineEnd(indent);
      var first := true;
      var i := 0;
      while i < |es|
        invariant 0 <= i <= |es| && indent == old(indent) && first == (i == 0)
        invariant out == old(out) + Join(parts[..i], sep)
      {
        ghost var o, gap := out, [];
        if first {
          first := false;
        } else {
          Write(",");
          EndLn();
          gap := sep;
        }
        assert out == o + gap;
        WriteTag(es[i]);
        JoinStep(parts, sep, i, old(out), o, gap, out);
        i := i + 1;
      }
      assert parts[..|es|] == parts;
    }
  }
}
