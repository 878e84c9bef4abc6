/**
 * Wire messages exchanged between the two peers, the receiver's dispatch on
 * the `type` discriminant, and the trimming of a typed-in peer identifier.
 */
module Protocol {

  /** The fields a message object carries besides its `type`. */
  datatype Payload =
    | NoFields
      /** A freehand sample: `{x, y, color, size}`. */
    | Point(x: real, y: real, color: string, size: real)
      /** A two-point shape: `{x1, y1, x2, y2, color, size}`. */
    | Segment(x1: real, y1: real, x2: real, y2: real, color: string, size: real)
      /** An image: `{data, x, y, width, height}`, `data` being the encoded bitmap. */
    | Picture(data: string, x: real, y: real, width: real, height: real)

  /**
   * A message object `{type: kind, ...fields}`. Committed shapes are kept in the
   * scene as the very same objects, so the scene's drawing list holds these too.
   */
  datatype Message = Message(kind: string, fields: Payload)

  /** The tools whose pointer release commits a retained shape. */
  const ShapeTools: set<string> := {"line", "rect", "circle", "triangle"}

  const ClearMessage: Message := Message("clear", NoFields)

  /** What the receiver does with a message, chosen by its `type` alone. */
  datatype Action = RenderPoint | AppendShape | ClearScene | AddImage | Ignore

  function Route(kind: string): (a: Action)
    ensures a == AppendShape <==> kind == "shape"
    ensures a == ClearScene <==> kind == "clear"
    ensures a == AddImage <==> kind == "image"
    ensures a == RenderPoint <==> kind == "draw"
    ensures a == Ignore <==> kind !in {"draw", "shape", "clear", "image"}
  {
    match kind
    case "draw" => RenderPoint
    case "shape" => AppendShape
    case "clear" => ClearScene
    case "image" => AddImage
    case _ => Ignore
  }

  /**
   * The record a shape tool commits, `{type: tool, x1, y1, x2, y2, color, size}`.
   * The outgoing message is `{type: 'shape', ...record}`: the spread copies the
   * record's own `type` over `'shape'`, so the message equals the record.
   */
  function ShapeRecord(tool: string, x1: real, y1: real, x2: real, y2: real, color: string, size: real): (m: Message)
    requires tool in ShapeTools
    ensures m.kind == tool && m.kind != "shape"
    ensures m.fields == Segment(x1, y1, x2, y2, color, size)
  {
    Message(tool, Segment(x1, y1, x2, y2, color, size))
  }

  /** A committed shape, once sent, is routed nowhere by the receiving peer. */
  lemma ShapeRecordIgnored(tool: string, x1: real, y1: real, x2: real, y2: real, color: string, size: real)
    requires tool in ShapeTools
    ensures Route(ShapeRecord(tool, x1, y1, x2, y2, color, size).kind) == Ignore
  {
  }

  /** Characters String.prototype.trim removes: white space and line terminators. */
  predicate IsTrimmable(c: char)
  {
    c == '\t' || c == '\n' || c == '\U{000B}' || c == '\U{000C}' || c == '\r' || c == ' '
    || c == '\U{00A0}' || c == '\U{1680}' || ('\U{2000}' <= c <= '\U{200A}')
    || c == '\U{2028}' || c == '\U{2029}' || c == '\U{202F}' || c == '\U{205F}'
    || c == '\U{3000}' || c == '\U{FEFF}'
  }

  /** Number of trimmable characters at the start of s. */
  function LeadingTrimmable(s: string): (n: nat)
    ensures n <= |s|
    ensures forall i :: 0 <= i < n ==> IsTrimmable(s[i])
    ensures n < |s| ==> !IsTrimmable(s[n])
  {
    if s == [] || !IsTrimmable(s[0]) then 0 else 1 + LeadingTrimmable(s[1..])
  }

  /** Number of trimmable characters at the end of s. */
  function TrailingTrimmable(s: string): (n: nat)
    ensures n <= |s|
    ensures forall i :: |s| - n <= i < |s| ==> IsTrimmable(s[i])
    ensures n < |s| ==> !IsTrimmable(s[|s| - 1 - n])
  {
    if s == [] || !IsTrimmable(s[|s| - 1]) then 0 else 1 + TrailingTrimmable(s[..|s| - 1])
  }

  /** r sits in s at offset a, and everything around it is trimmable. */
  ghost predicate TrimmedAt(s: string, r: string, a: nat)
  {
    && a + |r| <= |s|
    && s[a..a + |r|] == r
    && (forall i :: 0 <= i < a ==> IsTrimmable(s[i]))
    && (forall i :: a + |r| <= i < |s| ==> IsTrimmable(s[i]))
  }

  /** String.prototype.trim: s without its leading and trailing white space. */
  function Trim(s: string): (r: string)
    ensures r == [] <==> forall i :: 0 <= i < |s| ==> IsTrimmable(s[i])
    ensures r != [] ==> !IsTrimmable(r[0]) && !IsTrimmable(r[|r| - 1])
    ensures exists a :: TrimmedAt(s, r, a)
  {
    var a := LeadingTrimmable(s);
    if a == |s| then
      assert TrimmedAt(s, [], 0);
      []
    else
      var b := |s| - TrailingTrimmable(s);
      assert a < b by {
        assert !IsTrimmable(s[a]);
      }
      assert TrimmedAt(s, s[a..b], a);
      s[a..b]
  }
}
