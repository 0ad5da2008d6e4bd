/** The message of `MojangsonParseException`: the parser's message, then
    the location of the error drawn as the at most 35 characters before the
    offset and a marker. */
module MojangsonParseError {
  import opened NBTType

  /** How many characters before the offset are shown. */
  const CONTEXT: nat := 35
  const ELLIPSIS: seq<char> := "..."
  const MARKER: seq<char> := "<--[HERE]"

  /** `Math.min(content.length(), index)`. */
  function EffectiveIndex(content: seq<char>, index: int): (i: int)
    ensures i <= |content| && i <= index && (i == |content| || i == index)
  {
    if |content| < index then |content| else index
  }

  /** Where the shown context starts: `Math.max(0, i - 35)`. */
  function ContextStart(i: nat): (k: nat)
    ensures k <= i && i - k <= CONTEXT
    ensures k == 0 || i - k == CONTEXT
  {
    if i > CONTEXT then i - CONTEXT else 0
  }

  /** `printErrorLoc(content, index)`. A negative index makes `substring`
      throw `StringIndexOutOfBoundsException`: no location then. */
  function ErrorLoc(content: seq<char>, index: int): (r: Option<seq<char>>)
    ensures r.Some? <==> index >= 0
  {
    var i := EffectiveIndex(content, index);
    if i < 0 then None
    else Some((if i > CONTEXT then ELLIPSIS else []) + content[ContextStart(i)..i] + MARKER)
  }

  /** The constructor's message, `msg + " at: " + printErrorLoc(...)`, or
      nothing where `printErrorLoc` throws. */
  function Message(msg: seq<char>, content: seq<char>, index: int): (r: Option<seq<char>>)
    ensures r.Some? <==> index >= 0
    ensures r.Some? ==> r.value == msg + " at: " + ErrorLoc(content, index).value
  {
    match ErrorLoc(content, index)
    case None => None
    case Some(loc) => Some(msg + " at: " + loc)
  }

  /** The location always ends with the marker. The text before the marker
      is the context, after `"..."` when the effective index is past 35; the
      context is never longer than 35 characters and is exactly what
      precedes the effective index in the content. */
  lemma ErrorLocShape(content: seq<char>, index: int)
    requires index >= 0
    ensures var r := ErrorLoc(content, index).value;
      var i := EffectiveIndex(content, index);
      && |r| >= |MARKER| && r[|r| - |MARKER|..] == MARKER
      && var shown := r[..|r| - |MARKER|];
      && (i > CONTEXT ==> shown[..3] == ELLIPSIS && shown[3..] == content[i - CONTEXT..i] && |shown| == 3 + CONTEXT)
      && (i <= CONTEXT ==> shown == content[..i])
  {
    var i := EffectiveIndex(content, index);
    var r := ErrorLoc(content, index).value;
    var ctx := content[ContextStart(i)..i];
    var head := if i > CONTEXT then ELLIPSIS else [];
    assert r == head + ctx + MARKER;
    assert r[..|r| - |MARKER|] == head + ctx;
  }

  /** The context is a suffix of the content before the effective index,
      and it is the whole of that prefix exactly when it is not cut by the
      35-character limit. */
  lemma ContextIsSuffix(content: seq<char>, index: int)
    requires index >= 0
    ensures var i := EffectiveIndex(content, index);
      var ctx := content[ContextStart(i)..i];
      && |ctx| == (if i > CONTEXT then CONTEXT else i)
      && content[..i] == content[..i - |ctx|] + ctx
  {
    var i := EffectiveIndex(content, index);
    assert content[..i] == content[..ContextStart(i)] + content[ContextStart(i)..i];
  }

  /** An offset at or past the end shows the tail of the content, as the
      offset of the end does. */
  lemma PastTheEnd(content: seq<char>, index: int)
    requires index >= |content|
    ensures ErrorLoc(content, index) == ErrorLoc(content, |content|)
    ensures ErrorLoc(content, index).value == (if |content| > CONTEXT then ELLIPSIS else []) + content[ContextStart(|content|)..] + MARKER
  {
  }

  /** When the effective index is past 35 the location starts with
      `"..."`. */
  lemma EllipsisWhenCut(content: seq<char>, index: int)
    requires index >= 0
    ensures EffectiveIndex(content, index) > CONTEXT ==> ErrorLoc(content, index).value[..3] == ELLIPSIS
  {
    ErrorLocShape(content, index);
    var r := ErrorLoc(content, index).value;
    if EffectiveIndex(content, index) > CONTEXT {
      assert r[..3] == r[..|r| - |MARKER|][..3];
    }
  }

  /** The converse does not hold of the text: content that itself starts
      with `"..."` gives such a location at a small offset too. */
  lemma EllipsisNotOnlyWhenCut()
    ensures EffectiveIndex("...", 3) <= CONTEXT
    ensures ErrorLoc("...", 3) == Some("..." + MARKER)
  {
    var c: seq<char> := "...";
    assert EffectiveIndex(c, 3) == 3 && ContextStart(3) == 0;
    assert c[0..3] == c;
    assert ErrorLoc(c, 3).value == [] + c + MARKER;
    assert [] + c + MARKER == c + MARKER;
  }

  /** The message keeps the parser's message in front. */
  lemma MessageStartsWithMsg(msg: seq<char>, content: seq<char>, index: int)
    requires index >= 0
    ensures var m := Message(msg, content, index).value;
      |m| > |msg| + 5 && m[..|msg|] == msg && m[|msg|..|msg| + 5] == " at: "
      && m[|msg| + 5..] == ErrorLoc(content, index).value
  {
    var m := Message(msg, content, index).value;
    var loc := ErrorLoc(content, index).value;
    var tail := " at: " + loc;
    assert |loc| >= |MARKER|;
    assert m == msg + tail;
    assert m[..|msg|] == msg && m[|msg|..] == tail;
    assert tail[..5] == " at: " && tail[5..] == loc;
  }
}
