/** The drawing both charts emit, as abstract shape records, and the page's
    mount points, as containers whose child list is replaced. */
module Svg {

  /** What a `line` element is drawn for: an axis or a dashed gridline. */
  datatype LineRole = Axis | Grid

  /** What a `rect` element is drawn for: the light background track or the filled bar. */
  datatype RectRole = Track | Fill

  /** The text content of a `text` element, before number and date formatting. */
  datatype Label =
    | TickValue(value: int)                 // `value.toLocaleString()`
    | MonthYear(month: int, shortYear: int) // `${month}/${year % 100}`
    | SkillName(name: string)
    | Percent(share: real)                  // `${percentage.toFixed(1)}%`

  /** The `title` child of a marker: its date (`DD/MM/YYYY`) and project name. */
  datatype Tooltip = Tooltip(day: int, month: int, year: int, project: string)

  /** One command of a path's `d` attribute. */
  datatype Command = MoveTo(x: real, y: real) | LineTo(x: real, y: real)

  datatype Shape =
    | Line(x1: real, y1: real, x2: real, y2: real, lineRole: LineRole)
    | Text(x: real, y: real, content: Label)
    | Path(d: seq<Command>)
    | Circle(cx: real, cy: real, r: real, title: Tooltip)
    | Rect(x: real, y: real, width: real, height: real, rectRole: RectRole)

  /** An `svg` element with its size and children in document order. */
  datatype Image = Image(width: real, height: real, children: seq<Shape>)

  /** A child of a mount point: the chart's scroll wrapper (holding the `h3`
      title and the svg), or any other content that was already there. */
  datatype Node = ChartWrapper(title: string, chart: Image) | Markup(html: string)

  /** The element name of a shape. */
  datatype Kind = LineKind | TextKind | PathKind | CircleKind | RectKind

  function KindOf(shape: Shape): Kind {
    match shape
    case Line(_, _, _, _, _) => LineKind
    case Text(_, _, _) => TextKind
    case Path(_) => PathKind
    case Circle(_, _, _, _) => CircleKind
    case Rect(_, _, _, _, _) => RectKind
  }

  /** The shapes of one kind among `shapes`, in order. */
  function Select(shapes: seq<Shape>, kind: Kind): seq<Shape> {
    if shapes == [] then []
    else (if KindOf(shapes[0]) == kind then [shapes[0]] else []) + Select(shapes[1..], kind)
  }

  /** Selecting shapes of one kind distributes over concatenation. */
  lemma {:induction false} SelectAppend(a: seq<Shape>, b: seq<Shape>, kind: Kind)
    ensures Select(a + b, kind) == Select(a, kind) + Select(b, kind)
  {
    if a == [] {
      assert a + b == b;
    } else {
      assert (a + b)[0] == a[0];
      assert (a + b)[1..] == a[1..] + b;
      SelectAppend(a[1..], b, kind);
    }
  }

  lemma SelectSingle(x: Shape, kind: Kind)
    ensures Select([x], kind) == if KindOf(x) == kind then [x] else []
  {
    assert [x][1..] == [];
  }

  /** Selecting the kind every shape has keeps them all; selecting a kind no
      shape has keeps none. */
  lemma {:induction false} SelectUniform(shapes: seq<Shape>, kind: Kind, other: Kind)
    requires kind != other
    requires forall i | 0 <= i < |shapes| :: KindOf(shapes[i]) == kind
    ensures Select(shapes, kind) == shapes
    ensures Select(shapes, other) == []
  {
    if shapes != [] {
      assert forall i | 0 <= i < |shapes[1..]| :: shapes[1..][i] == shapes[i + 1];
      SelectUniform(shapes[1..], kind, other);
      assert shapes == [shapes[0]] + shapes[1..];
    }
  }

  /** A mount point: an element whose children the charts replace. */
  class Container {
    var children: seq<Node>

    constructor (initial: seq<Node>)
      ensures children == initial
    {
      children := initial;
    }

    /** `innerHTML = ""`. */
    method Clear()
      modifies this
      ensures children == []
    {
      children := [];
    }

    /** `appendChild(node)`. */
    method AppendChild(node: Node)
      modifies this
      ensures children == old(children) + [node]
    {
      children := children + [node];
    }
  }

  /** The page, reduced to what `document.getElementById` can find. */
  class Document {
    var elements: map<string, Container>

    constructor (elements: map<string, Container>)
      ensures this.elements == elements
    {
      this.elements := elements;
    }
  }

  /** The common tail of both chart functions: look the container up, leave
      everything untouched when it is missing, otherwise clear it and give it
      the wrapper holding the title and the svg as its only child. No other
      container changes, even when several ids name the same element. */
  method Mount(doc: Document, containerId: string, title: string, image: Image)
    modifies doc.elements.Values
    ensures containerId !in doc.elements ==> unchanged(doc.elements.Values)
    ensures containerId in doc.elements ==>
      doc.elements[containerId].children == [ChartWrapper(title, image)]
    ensures containerId in doc.elements ==>
      forall c | c in doc.elements.Values && c != doc.elements[containerId] :: c.children == old(c.children)
  {
    if containerId !in doc.elements {
      return;
    }
    var container := doc.elements[containerId];
    container.Clear();
    container.AppendChild(ChartWrapper(title, image));
  }
}
