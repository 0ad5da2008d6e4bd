/** What the two `MojangsonWriter`s print, as functions of the tag and the
    indent level. The two writers differ only in the rule that decides when
    a compound is printed on one line, and in whether their container
    printers check the `pretty` flag themselves. */
module MojangsonLayout {
  import opened Bytes
  import opened NBTType
  import opened NBTTag
  import opened NBTValues
  import opened Text

  /** The platform line separator, fixed here to a line feed. */
  const NEWLINE: seq<char> := "\n"
  const INDENT: seq<char> := "    "

  /** When a compound is "simple", printed on one line: `isPrimitive` in
      the `eisenwave` writer, `isSimple` in the `me.eisenwave` one. */
  datatype SimpleRule = AllPrimitive | AtMostThree

  /** What the writers print through but whose source is not modelled:
      `toMSONString()` of the variants not modelled here, and the static
      `NBTString.toMSONString(String)` that quotes a key. */
  datatype Renderers = Renderers(other: Tag -> seq<char>, quote: seq<byte> -> seq<char>)

  /** A writer's fixed configuration. */
  datatype Style = Style(pretty: bool, rule: SimpleRule, renderers: Renderers)

  /** `indent()` at level `n`: `n` copies of four spaces. */
  function Indentation(n: int): seq<char>
  {
    if n <= 0 then [] else Repeat(INDENT, n)
  }

  /** Four spaces per level, and nothing at level 0 or below. */
  lemma IndentationSpaces(n: int)
    ensures |Indentation(n)| == if n <= 0 then 0 else 4 * n
    ensures forall k :: 0 <= k < |Indentation(n)| ==> Indentation(n)[k] == ' '
  {
    if n > 0 {
      RepeatLength(INDENT, n);
      RepeatOf(INDENT, n, ' ');
    }
  }

  /** `endLn()`: a line separator, then the indentation. */
  function LineEnd(n: int): seq<char>
  {
    NEWLINE + Indentation(n)
  }

  /** The characters of `[A-Za-z0-9._+-]`. */
  predicate IsBareKeyChar(b: byte)
  {
    || 'A' as int <= b <= 'Z' as int
    || 'a' as int <= b <= 'z' as int
    || '0' as int <= b <= '9' as int
    || b == '.' as int || b == '_' as int || b == '+' as int || b == '-' as int
  }

  /** `SIMPLE_STRING.matcher(key).matches()`: one or more such characters. */
  predicate IsBareKey(k: seq<byte>)
  {
    |k| >= 1 && forall i :: 0 <= i < |k| ==> IsBareKeyChar(k[i])
  }

  /** The bytes of an ASCII key as characters. */
  function AsChars(k: seq<byte>): (r: seq<char>)
    ensures |r| == |k| && forall i :: 0 <= i < |k| ==> r[i] as int == k[i]
  {
    seq(|k|, i requires 0 <= i < |k| => k[i] as char)
  }

  /** A compound key: bare when it matches the pattern, quoted otherwise. */
  function KeyText(k: seq<byte>, r: Renderers): seq<char>
  {
    if IsBareKey(k) then AsChars(k) else r.quote(k)
  }

  /** A bare key is printed as its own characters and contains none of the
      characters that delimit entries. */
  lemma BareKeyText(k: seq<byte>, r: Renderers)
    ensures IsBareKey(k) ==> KeyText(k, r) == AsChars(k) && ',' !in KeyText(k, r) && ':' !in KeyText(k, r)
    ensures IsBareKey(k) ==> ' ' !in KeyText(k, r) && '\n' !in KeyText(k, r)
    ensures !IsBareKey(k) ==> KeyText(k, r) == r.quote(k)
  {
  }

  /** The simple rule for compounds. */
  predicate CompoundSimple(rule: SimpleRule, es: seq<Entry>)
  {
    && (rule == AtMostThree ==> |es| <= 3)
    && forall i :: 0 <= i < |es| ==> IsPrimitive(TypeOf(es[i].value))
  }

  /** The simple rule for lists, the same in both writers. */
  predicate ListSimple(et: TagType, es: seq<Tag>)
  {
    es == [] || IsPrimitive(et)
  }

  /** The `me.eisenwave` rule is the `eisenwave` rule with an extra size
      limit: they agree on compounds of at most three entries, and
      disagree exactly on larger compounds of primitives. */
  lemma RulesCompared(es: seq<Entry>)
    ensures CompoundSimple(AtMostThree, es) ==> CompoundSimple(AllPrimitive, es)
    ensures |es| <= 3 ==> (CompoundSimple(AtMostThree, es) <==> CompoundSimple(AllPrimitive, es))
    ensures |es| > 3 ==> !CompoundSimple(AtMostThree, es)
  {
  }

  /** `writeTag(tag)` at indent level `ind`. */
  function TagText(st: Style, t: Tag, ind: int): seq<char>
    decreases t, 2
  {
    if !st.pretty then MsonText(t, st.renderers.other)
    else match t
      case NBTCompound(es) => CompoundText(st, es, ind)
      case NBTList(et, es) => ListText(st, et, es, ind)
      case _ => MsonText(t, st.renderers.other)
  }

  /** One compound entry: the key, `": "`, and the value. */
  function EntryTexts(st: Style, es: seq<Entry>, ind: int): (r: seq<seq<char>>)
    ensures |r| == |es|
    decreases es, 0
  {
    seq(|es|, i requires 0 <= i < |es| => KeyText(es[i].key, st.renderers) + ": " + TagText(st, es[i].value, ind))
  }

  function ElementTexts(st: Style, es: seq<Tag>, ind: int): (r: seq<seq<char>>)
    ensures |r| == |es|
    decreases es, 0
  {
    seq(|es|, i requires 0 <= i < |es| => TagText(st, es[i], ind))
  }

  /** The layout `writeCompound` and `writeList` share: nothing between the
      brackets when empty; the parts separated by `", "` when simple;
      otherwise each part on its own line one level deeper, separated by
      `","`, and the closing bracket on a line at the original level. */
  function Block(open: char, close: char, simple: bool, parts: seq<seq<char>>, inner: seq<seq<char>>, ind: int): seq<char>
  {
    [open]
    + (if |parts| == 0 then []
       else if simple then Join(parts, ", ")
       else LineEnd(ind + 1) + Join(inner, "," + LineEnd(ind + 1)) + LineEnd(ind))
    + [close]
  }

  /** `writeCompound` in pretty mode. */
  function CompoundText(st: Style, es: seq<Entry>, ind: int): seq<char>
    decreases es, 1
  {
    var simple := CompoundSimple(st.rule, es);
    Block('{', '}', simple, EntryTexts(st, es, ind), if simple then [] else EntryTexts(st, es, ind + 1), ind)
  }

  /** `writeList` in pretty mode. */
  function ListText(st: Style, et: TagType, es: seq<Tag>, ind: int): seq<char>
    decreases es, 1
  {
    var simple := ListSimple(et, es);
    Block('[', ']', simple, ElementTexts(st, es, ind), if simple then [] else ElementTexts(st, es, ind + 1), ind)
  }

  /** What `writeNamedTag` prints before the tag: for a non-empty name, the
      name as a quoted string and `':'`, and `' '` when pretty. */
  function NamePrefix(st: Style, name: seq<byte>): seq<char>
  {
    if name == [] then [] else st.renderers.other(NBTString(name)) + ":" + (if st.pretty then " " else "")
  }

  /** `writeNamedTag(name, root)`. */
  function NamedText(st: Style, name: seq<byte>, root: Tag, ind: int): seq<char>
  {
    NamePrefix(st, name) + TagText(st, root, ind)
  }

  /** Without `pretty`, every tag prints as its `toMSONString()`. */
  lemma PlainIsMson(st: Style, t: Tag, ind: int)
    requires !st.pretty
    ensures TagText(st, t, ind) == MsonText(t, st.renderers.other)
  {
  }

  /** END, primitives and arrays print as their `toMSONString()` in either
      mode, and every type is one of those or a container. */
  lemma LeavesAreMson(st: Style, t: Tag, ind: int)
    ensures TypeOf(t) == End || IsPrimitive(TypeOf(t)) || IsArray(TypeOf(t)) || TypeOf(t) == Compound || TypeOf(t) == List
    ensures TypeOf(t) == End || IsPrimitive(TypeOf(t)) || IsArray(TypeOf(t)) ==> TagText(st, t, ind) == MsonText(t, st.renderers.other)
  {
  }

  /** In pretty mode a compound prints as `writeCompound` lays it out, and
      a list as `writeList` does. */
  lemma PrettyContainers(st: Style, t: Tag, ind: int)
    requires st.pretty
    ensures t.NBTCompound? ==> TagText(st, t, ind) == CompoundText(st, t.entries, ind)
    ensures t.NBTList? ==> TagText(st, t, ind) == ListText(st, t.elementType, t.elements, ind)
  {
  }

  /** Empty containers print as `{}` and `[]`. */
  lemma EmptyContainers(st: Style, et: TagType, ind: int)
    ensures CompoundText(st, [], ind) == "{}"
    ensures ListText(st, et, [], ind) == "[]"
  {
  }

  /** Under either rule the values of a simple compound are primitives, so
      they print flat at `toMSONString()`, with no layout of their own. */
  lemma SimpleCompoundIsFlat(st: Style, es: seq<Entry>, ind: int)
    requires st.pretty && es != [] && CompoundSimple(st.rule, es)
    ensures CompoundText(st, es, ind)
      == "{" + Join(seq(|es|, i requires 0 <= i < |es| => KeyText(es[i].key, st.renderers) + ": " + MsonText(es[i].value, st.renderers.other)), ", ") + "}"
  {
    var flat := seq(|es|, i requires 0 <= i < |es| => KeyText(es[i].key, st.renderers) + ": " + MsonText(es[i].value, st.renderers.other));
    forall i | 0 <= i < |es| ensures EntryTexts(st, es, ind)[i] == flat[i] {
      assert IsPrimitive(TypeOf(es[i].value));
    }
    assert EntryTexts(st, es, ind) == flat;
  }

  /** The elements of a simple, well-formed, non-empty list are primitives
      and print flat in the same way. */
  lemma SimpleListIsFlat(st: Style, et: TagType, es: seq<Tag>, ind: int)
    requires st.pretty && es != [] && ListSimple(et, es)
    requires forall i :: 0 <= i < |es| ==> TypeOf(es[i]) == et
    ensures ListText(st, et, es, ind)
      == "[" + Join(seq(|es|, i requires 0 <= i < |es| => MsonText(es[i], st.renderers.other)), ", ") + "]"
  {
    var flat := seq(|es|, i requires 0 <= i < |es| => MsonText(es[i], st.renderers.other));
    forall i | 0 <= i < |es| ensures ElementTexts(st, es, ind)[i] == flat[i] {
      assert IsPrimitive(TypeOf(es[i]));
    }
    assert ElementTexts(st, es, ind) == flat;
  }

  /** A container that is not simple opens a new line one level deeper
      right after its bracket, and closes on a line at its own level. */
  lemma BlockFrame(open: char, close: char, parts: seq<seq<char>>, inner: seq<seq<char>>, ind: int)
    requires |parts| > 0
    ensures var r := Block(open, close, false, parts, inner, ind);
      var head := [open] + LineEnd(ind + 1);
      var tail := LineEnd(ind) + [close];
      && |r| >= |head| + |tail|
      && r[..|head|] == head
      && r[|r| - |tail|..] == tail
      && r[|head|..|r| - |tail|] == Join(inner, "," + LineEnd(ind + 1))
  {
    var head := [open] + LineEnd(ind + 1);
    var tail := LineEnd(ind) + [close];
    var body := Join(inner, "," + LineEnd(ind + 1));
    var r := Block(open, close, false, parts, inner, ind);
    assert r == head + body + tail;
  }

  /** Every compound in the tree has at most three entries. */
  predicate SmallCompounds(t: Tag)
    decreases t, 0
  {
    match t
    case NBTCompound(es) => |es| <= 3 && forall i :: 0 <= i < |es| ==> SmallCompounds(es[i].value)
    case NBTList(_, es) => forall i :: 0 <= i < |es| ==> SmallCompounds(es[i])
    case _ => true
  }

  /** The two writers print the same text for every tree whose compounds
      have at most three entries: that is the only place their rules
      differ. */
  lemma {:induction false} WritersAgree(pretty: bool, r: Renderers, t: Tag, ind: int)
    requires SmallCompounds(t)
    ensures TagText(Style(pretty, AllPrimitive, r), t, ind) == TagText(Style(pretty, AtMostThree, r), t, ind)
    decreases t
  {
    var a, b := Style(pretty, AllPrimitive, r), Style(pretty, AtMostThree, r);
    if pretty {
      match t
      case NBTCompound(es) =>
        forall d | d == ind || d == ind + 1 ensures EntryTexts(a, es, d) == EntryTexts(b, es, d) {
          forall i | 0 <= i < |es| ensures EntryTexts(a, es, d)[i] == EntryTexts(b, es, d)[i] {
            WritersAgree(pretty, r, es[i].value, d);
          }
        }
        RulesCompared(es);
        assert CompoundSimple(a.rule, es) == CompoundSimple(b.rule, es);
        assert CompoundText(a, es, ind) == CompoundText(b, es, ind);
      case NBTList(et, es) =>
        forall d | d == ind || d == ind + 1 ensures ElementTexts(a, es, d) == ElementTexts(b, es, d) {
          forall i | 0 <= i < |es| ensures ElementTexts(a, es, d)[i] == ElementTexts(b, es, d)[i] {
            WritersAgree(pretty, r, es[i], d);
          }
        }
        assert ListText(a, et, es, ind) == ListText(b, et, es, ind);
      case _ =>
    }
  }

  /** A compound of more than three primitives is where they differ: the
      `eisenwave` writer keeps it on one line, the `me.eisenwave` writer
      opens a new line right after the brace. */
  lemma WritersDiffer(r: Renderers, es: seq<Entry>, ind: int)
    requires |es| > 3 && CompoundSimple(AllPrimitive, es)
    ensures var a := Style(true, AllPrimitive, r);
      CompoundText(a, es, ind) == "{" + Join(EntryTexts(a, es, ind), ", ") + "}"
    ensures CompoundText(Style(true, AtMostThree, r), es, ind)[..2] == "{\n"
  {
    var b := Style(true, AtMostThree, r);
    RulesCompared(es);
    BlockFrame('{', '}', EntryTexts(b, es, ind), EntryTexts(b, es, ind + 1), ind);
    var head := ['{'] + LineEnd(ind + 1);
    assert head[..2] == "{\n";
  }
}
