/** The steps both `MojangsonWriter`s take to print a container, each
    stated as what it appends to the output: one round of the loop over
    the parts, and the brackets and line ends around the parts. */
module MojangsonSteps {
  import opened Bytes
  import opened NBTType
  import opened NBTTag
  import opened Text
  import opened MojangsonLayout

  /** What goes between two parts of a container: `", "` on one line, or
      `","` and a line end at level `ind`. */
  function Separator(simple: bool, ind: int): seq<char>
  {
    if simple then ", " else "," + LineEnd(ind)
  }

  /** The steps of `writeCompound` in pretty mode (the brace, the line
      end one level deeper, the entries, the line end back at the original
      level) put out its text but the closing brace. */
  lemma CompoundWritten(st: Style, es: seq<Entry>, ind: int, d: int, simple: bool,
                        o0: seq<char>, o1: seq<char>, o2: seq<char>, o3: seq<char>, o4: seq<char>)
    requires es != [] && simple == CompoundSimple(st.rule, es)
    requires o1 == o0 + "{"
    requires o2 == o1 + (if simple then [] else LineEnd(ind + 1))
    requires d == if simple then ind else ind + 1
    requires o3 == o2 + Join(EntryTexts(st, es, d), Separator(simple, d))
    requires o4 == o3 + (if simple then [] else LineEnd(ind))
    ensures o4 + "}" == o0 + CompoundText(st, es, ind)
  {
    BlockWritten('{', '}', simple, EntryTexts(st, es, ind), EntryTexts(st, es, ind + 1), ind, o0, o1, o2, o3, o4);
  }

  /** The same for `writeList`. */
  lemma ListWritten(st: Style, et: TagType, es: seq<Tag>, ind: int, d: int, simple: bool,
                    o0: seq<char>, o1: seq<char>, o2: seq<char>, o3: seq<char>, o4: seq<char>)
    requires es != [] && simple == ListSimple(et, es)
    requires o1 == o0 + "["
    requires o2 == o1 + (if simple then [] else LineEnd(ind + 1))
    requires d == if simple then ind else ind + 1
    requires o3 == o2 + Join(ElementTexts(st, es, d), Separator(simple, d))
    requires o4 == o3 + (if simple then [] else LineEnd(ind))
    ensures o4 + "]" == o0 + ListText(st, et, es, ind)
  {
    BlockWritten('[', ']', simple, ElementTexts(st, es, ind), ElementTexts(st, es, ind + 1), ind, o0, o1, o2, o3, o4);
  }

  lemma BlockWritten(open: char, close: char, simple: bool, parts: seq<seq<char>>, deeper: seq<seq<char>>, ind: int,
                     o0: seq<char>, o1: seq<char>, o2: seq<char>, o3: seq<char>, o4: seq<char>)
    requires |parts| > 0
    requires o1 == o0 + [open]
    requires o2 == o1 + (if simple then [] else LineEnd(ind + 1))
    requires o3 == o2 + Join(if simple then parts else deeper, Separator(simple, if simple then ind else ind + 1))
    requires o4 == o3 + (if simple then [] else LineEnd(ind))
    ensures o4 + [close] == o0 + Block(open, close, simple, parts, if simple then [] else deeper, ind)
  {
    var m1: seq<char> := if simple then [] else LineEnd(ind + 1);
    var j := Join(if simple then parts else deeper, Separator(simple, if simple then ind else ind + 1));
    var m2: seq<char> := if simple then [] else LineEnd(ind);
    Regroup(o0, [open], m1, j, m2, [close]);
    if simple {
      assert m1 + j + m2 == j;
    }
  }

  lemma Regroup(o: seq<char>, a: seq<char>, b: seq<char>, c: seq<char>, d: seq<char>, e: seq<char>)
    ensures o + a + b + c + d + e == o + (a + (b + c + d) + e)
  {
  }

  /** The same round for a compound entry, whose part is written as its
      key, `": "` and its value. */
  lemma EntryStep(parts: seq<seq<char>>, sep: seq<char>, i: nat, base: seq<char>, o: seq<char>, gap: seq<char>,
                  key: seq<char>, text: seq<char>, o': seq<char>)
    requires i < |parts|
    requires o == base + Join(parts[..i], sep)
    requires gap == if i == 0 then [] else sep
    requires parts[i] == key + ": " + text
    requires o' == o + gap + key + ": " + text
    ensures o' == base + Join(parts[..i + 1], sep)
  {
    assert o' == o + gap + parts[i];
    JoinStep(parts, sep, i, base, o, gap, o');
  }

  /** Two writes in a row put out the two texts joined. */
  lemma Concatenated(o0: seq<char>, a: seq<char>, b: seq<char>, o1: seq<char>, o2: seq<char>)
    requires o1 == o0 + a && o2 == o1 + b
    ensures o2 == o0 + (a + b)
  {
  }
}
