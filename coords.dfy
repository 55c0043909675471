/**
 * Reading stimulation targets from a neuronavigation XML export, and moving
 * them so that the targets of each hemisphere are centred on that
 * hemisphere's primary motor cortex landmark.
 */
module Coords {
  import opened Outcomes

  /** A float as numpy holds it here: a finite value, or NaN marking a cell or centroid that is missing. */
  datatype Float = Num(v: real) | NaN

  /** One list of floats, as tolist() returns it. */
  type Row = seq<Float>

  /**
   * A parsed XML element: its tag, its attributes in document order (their
   * values already read as floats) and its children in document order.
   */
  datatype Element = Element(tag: string, attrib: seq<(string, real)>, children: seq<Element>)

  /** The exceptions the conversion raises. */
  datatype Error =
    | UnknownFormat(tag: string)   // ValueError: the root is neither kind of marker list
    | MissingChild                 // IndexError: an element lacks the child the parser indexes
    | BadKey(key: string)          // ValueError or IndexError: a matrix attribute not named by two cell digits below 4
    | InhomogeneousRows            // ValueError from np.atleast_2d on rows of different lengths
    | UnknownCoordinateSystem      // NotImplementedError
    | UnknownHemisphere            // NotImplementedError

  /** The text the exception carries. */
  function Message(e: Error): (m: string)
    requires e.BadKey? ==> KeyCell(e.key).None?
    ensures e.UnknownFormat? ==> e.tag <= m && |m| > |e.tag|
  {
    match e
    case UnknownFormat(tag) => tag + " is an unknown xml-file-format"
    case MissingChild => "child index out of range"
    case BadKey(key) => KeyMessage(key)
    case InhomogeneousRows => "setting an array element with a sequence"
    case UnknownCoordinateSystem => "Unknown coordinate system"
    case UnknownHemisphere => "Unknown hemisphere"
  }

  // ---------------------------------------------------------------------
  // Trigger markers: a 4 x 4 matrix stored as attributes
  // ---------------------------------------------------------------------

  /** int() of one character: its value when it is a decimal digit. */
  function Digit(ch: char): (d: Option<nat>)
    ensures d.Some? <==> '0' <= ch <= '9'
    ensures d.Some? ==> d.value < 10 && d.value == ch as int - '0' as int
  {
    if '0' <= ch <= '9' then Some(ch as int - '0' as int) else None
  }

  /**
   * The (row, column) cell an attribute name writes: its next-to-last
   * character is the column and its last character the row. A name that is
   * too short, or whose two characters are not digits, or that points
   * outside the 4 x 4 matrix, raises.
   */
  function KeyCell(key: string): (cell: Option<(nat, nat)>)
    ensures cell.Some? <==>
      |key| >= 2 && '0' <= key[|key| - 2] <= '3' && '0' <= key[|key| - 1] <= '3'
    ensures cell.Some? ==>
      cell.value.0 == key[|key| - 1] as int - '0' as int &&
      cell.value.1 == key[|key| - 2] as int - '0' as int
  {
    if |key| < 2 then None
    else match (Digit(key[|key| - 2]), Digit(key[|key| - 1]))
      case (Some(c), Some(r)) => if r < 4 && c < 4 then Some((r, c)) else None
      case _ => None
  }

  /**
   * What a name that addresses no cell raises, in the order the parser
   * meets the faults: indexing key[-2], int() of that character, int() of
   * the last one, then the matrix row, then its column.
   */
  function KeyMessage(key: string): string
    requires KeyCell(key).None?
  {
    if |key| < 2 then "string index out of range"
    else
      var col, row := key[|key| - 2], key[|key| - 1];
      if Digit(col).None? then "invalid literal for int() with base 10: '" + [col] + "'"
      else if Digit(row).None? then "invalid literal for int() with base 10: '" + [row] + "'"
      else if Digit(row).value >= 4 then "index " + [row] + " is out of bounds for axis 0 with size 4"
      else "index " + [col] + " is out of bounds for axis 1 with size 4"
  }

  /** One attribute's write: the cell it addresses, or the exception its name raises. */
  function Write(attr: (string, real)): Result<(nat, nat), Error>
  {
    match KeyCell(attr.0)
    case None => Err(BadKey(attr.0))
    case Some(cell) => Ok(cell)
  }

  /** What cell (r, c) holds after the attributes are written in order onto a NaN-filled matrix. */
  function Cell(attrs: seq<(string, real)>, r: nat, c: nat): Float
  {
    if |attrs| == 0 then NaN
    else if KeyCell(attrs[|attrs| - 1].0) == Some((r, c)) then Num(attrs[|attrs| - 1].1)
    else Cell(attrs[..|attrs| - 1], r, c)
  }

  /**
   * A cell stays NaN exactly when no attribute addresses it; otherwise it
   * holds the value of the last attribute that does.
   */
  lemma {:induction false} CellLastWrite(attrs: seq<(string, real)>, r: nat, c: nat)
    ensures Cell(attrs, r, c).NaN? <==>
      forall i :: 0 <= i < |attrs| ==> KeyCell(attrs[i].0) != Some((r, c))
    ensures Cell(attrs, r, c).Num? ==>
      exists i :: 0 <= i < |attrs| && KeyCell(attrs[i].0) == Some((r, c)) &&
        Cell(attrs, r, c) == Num(attrs[i].1) &&
        forall j :: i < j < |attrs| ==> KeyCell(attrs[j].0) != Some((r, c))
  {
    CellUnset(attrs, r, c);
    if |attrs| > 0 {
      var init := attrs[..|attrs| - 1];
      var last := |attrs| - 1;
      if KeyCell(attrs[last].0) == Some((r, c)) {
        assert Cell(attrs, r, c) == Num(attrs[last].1);
      } else if Cell(init, r, c).Num? {
        CellLastWrite(init, r, c);
        var i :| 0 <= i < |init| && KeyCell(init[i].0) == Some((r, c)) &&
          Cell(init, r, c) == Num(init[i].1) &&
          forall j :: i < j < |init| ==> KeyCell(init[j].0) != Some((r, c));
        assert init[i] == attrs[i];
        assert forall j :: i < j < |attrs| ==> KeyCell(attrs[j].0) != Some((r, c)) by {
          assert forall j :: i < j < |init| ==> init[j] == attrs[j];
        }
      }
    }
  }

  /** The NaN half of CellLastWrite: a cell no attribute addresses keeps its NaN. */
  lemma {:induction false} CellUnset(attrs: seq<(string, real)>, r: nat, c: nat)
    ensures Cell(attrs, r, c).NaN? <==>
      forall i :: 0 <= i < |attrs| ==> KeyCell(attrs[i].0) != Some((r, c))
  {
    if |attrs| > 0 {
      var init := attrs[..|attrs| - 1];
      CellUnset(init, r, c);
      assert forall i :: 0 <= i < |init| ==> init[i] == attrs[i];
    }
  }

  /**
   * One trigger marker's entry: the first three cells of the bottom row of
   * the matrix its second child carries.
   */
  function TriggerEntry(marker: Element): Result<Row, Error>
  {
    if |marker.children| < 2 then Err(MissingChild)
    else
      var attrs := marker.children[1].attrib;
      match Collect(attrs, Write)
      case Err(e) => Err(e)
      case Ok(_) => Ok([Cell(attrs, 3, 0), Cell(attrs, 3, 1), Cell(attrs, 3, 2)])
  }

  /**
   * A marker decodes exactly when it has a second child whose attribute
   * names all address a cell; it then yields three cells, and a failure is
   * either the missing child or the first name that does not address a cell.
   */
  lemma TriggerEntryOk(marker: Element)
    ensures TriggerEntry(marker).Ok? <==>
      |marker.children| >= 2 &&
      forall i :: 0 <= i < |marker.children[1].attrib| ==> KeyCell(marker.children[1].attrib[i].0).Some?
    ensures TriggerEntry(marker).Ok? ==> |TriggerEntry(marker).value| == 3
    ensures TriggerEntry(marker).Err? && |marker.children| >= 2 ==>
      var attrs := marker.children[1].attrib;
      exists i :: (0 <= i < |attrs| && TriggerEntry(marker) == Err(BadKey(attrs[i].0)) &&
        KeyCell(attrs[i].0).None? && forall j :: 0 <= j < i ==> KeyCell(attrs[j].0).Some?)
  {
    if |marker.children| >= 2 {
      var attrs := marker.children[1].attrib;
      CollectOk(attrs, Write);
      if Collect(attrs, Write).Err? {
        CollectErr(attrs, Write);
      }
    }
  }

  /**
   * parse_trigMarker's inner loop: the matrix starts as NaN everywhere and
   * each attribute writes its value into the cell its name addresses.
   */
  method DecodeTrigger(marker: Element) returns (r: Result<Row, Error>)
    ensures r == TriggerEntry(marker)
  {
    if |marker.children| < 2 {
      return Err(MissingChild);
    }
    var data := new Float[4, 4]((_, _) => NaN);
    var attrs := marker.children[1].attrib;
    for i := 0 to |attrs|
      invariant Collect(attrs[..i], Write).Ok?
      invariant forall row, col :: 0 <= row < 4 && 0 <= col < 4 ==>
        data[row, col] == Cell(attrs[..i], row, col)
    {
      var (key, value) := attrs[i];
      assert attrs[..i + 1][..i] == attrs[..i];
      var cell := KeyCell(key);
      if cell.None? {
        CollectAbort(attrs, i + 1, Write);
        return Err(BadKey(key));
      }
      var (row, col) := cell.value;
      data[row, col] := Num(value);
    }
    assert attrs[..|attrs|] == attrs;
    return Ok([data[3, 0], data[3, 1], data[3, 2]]);
  }

  /** The children tagged TriggerMarker, in document order; other children are skipped. */
  function Markers(children: seq<Element>): seq<Element>
  {
    if |children| == 0 then []
    else
      var last := children[|children| - 1];
      Markers(children[..|children| - 1]) + (if last.tag == "TriggerMarker" then [last] else [])
  }

  /** Filtering keeps order: the markers of a concatenation are the markers of each part, in turn. */
  lemma {:induction false} MarkersAppend(a: seq<Element>, b: seq<Element>)
    ensures Markers(a + b) == Markers(a) + Markers(b)
    decreases |b|
  {
    if |b| == 0 {
      assert a + b == a;
    } else {
      var b' := b[..|b| - 1];
      assert (a + b)[..|a + b| - 1] == a + b';
      MarkersAppend(a, b');
    }
  }

  /** Exactly the TriggerMarker children are kept, and never more elements than there are children. */
  lemma {:induction false} MarkersSelect(children: seq<Element>)
    ensures |Markers(children)| <= |children|
    ensures forall e :: e in Markers(children) <==> e in children && e.tag == "TriggerMarker"
  {
    if |children| > 0 {
      var init := children[..|children| - 1];
      MarkersSelect(init);
      assert children == init + [children[|children| - 1]];
    }
  }

  // ---------------------------------------------------------------------
  // GUM markers
  // ---------------------------------------------------------------------

  /** child[0][0]...[0], depth levels down, or nothing when some level has no child. */
  function FirstDescendant(e: Element, depth: nat): Option<Element>
  {
    if depth == 0 then Some(e)
    else if |e.children| == 0 then None
    else FirstDescendant(e.children[0], depth - 1)
  }

  /** One GUM marker's entry: every attribute value of child[0][0][0][0], in document order. */
  function GumEntry(marker: Element): (r: Result<Row, Error>)
    ensures r.Err? ==> r.error == MissingChild
  {
    match FirstDescendant(marker, 4)
    case None => Err(MissingChild)
    case Some(el) => Ok(seq(|el.attrib|, k requires 0 <= k < |el.attrib| => Num(el.attrib[k].1)))
  }

  /** The entry exists exactly when the four-level path of first children does, and lists that element's values. */
  lemma GumEntryPath(marker: Element)
    ensures GumEntry(marker).Ok? <==>
      |marker.children| > 0 && |marker.children[0].children| > 0 &&
      |marker.children[0].children[0].children| > 0 &&
      |marker.children[0].children[0].children[0].children| > 0
    ensures GumEntry(marker).Ok? ==>
      var el := marker.children[0].children[0].children[0].children[0];
      |GumEntry(marker).value| == |el.attrib| &&
      forall k :: 0 <= k < |el.attrib| ==> GumEntry(marker).value[k] == Num(el.attrib[k].1)
  {
    if |marker.children| > 0 {
      var a := marker.children[0];
      assert FirstDescendant(marker, 4) == FirstDescendant(a, 3);
      if |a.children| > 0 {
        var b := a.children[0];
        assert FirstDescendant(a, 3) == FirstDescendant(b, 2);
        if |b.children| > 0 {
          assert FirstDescendant(b, 2) == FirstDescendant(b.children[0], 1);
        }
      }
    }
  }

  // ---------------------------------------------------------------------
  // Dispatch
  // ---------------------------------------------------------------------

  /**
   * np.atleast_2d(entries).tolist(): no entries give a single empty row,
   * equally long rows come back unchanged, rows of different lengths raise.
   */
  function AtLeast2d(entries: seq<Row>): (r: Result<seq<Row>, Error>)
    ensures r.Err? <==> exists i :: 0 <= i < |entries| && |entries[i]| != |entries[0]|
    ensures r.Ok? ==> |r.value| > 0 && forall i :: 0 <= i < |r.value| ==> |r.value[i]| == |r.value[0]|
    ensures |entries| == 0 ==> r == Ok([[]])
    ensures r.Ok? && |entries| > 0 ==> r.value == entries
  {
    if |entries| == 0 then Ok([[]])
    else if forall i :: 0 <= i < |entries| ==> |entries[i]| == |entries[0]| then Ok(entries)
    else Err(InhomogeneousRows)
  }

  /** The collected entries made two-dimensional, or the exception that stopped the collection. */
  function Finish(entries: Result<seq<Row>, Error>): Result<seq<Row>, Error>
  {
    match entries
    case Err(e) => Err(e)
    case Ok(rows) => AtLeast2d(rows)
  }

  /** What parse returns for a root element. */
  function Parsed(root: Element): Result<seq<Row>, Error>
  {
    if root.tag == "GUMMarkerList" then Finish(Collect(root.children, GumEntry))
    else if root.tag == "TriggerMarkerList" then Finish(Collect(Markers(root.children), TriggerEntry))
    else Err(UnknownFormat(root.tag))
  }

  /** parse_gumMarker: one entry per child, in order; the first malformed child raises. */
  method ParseGumMarker(root: Element) returns (r: Result<seq<Row>, Error>)
    ensures r == Finish(Collect(root.children, GumEntry))
  {
    var entries: seq<Row> := [];
    for i := 0 to |root.children|
      invariant Collect(root.children[..i], GumEntry) == Ok(entries)
    {
      var child := root.children[i];
      assert root.children[..i + 1][..i] == root.children[..i];
      var entry := GumEntry(child);
      if entry.Err? {
        CollectAbort(root.children, i + 1, GumEntry);
        return Err(entry.error);
      }
      entries := entries + [entry.value];
    }
    assert root.children[..|root.children|] == root.children;
    r := AtLeast2d(entries);
  }

  /** Extending the children by one extends the markers by that child when it is one. */
  lemma MarkersStep(children: seq<Element>, i: nat)
    requires i < |children|
    ensures Markers(children[..i + 1]) ==
      Markers(children[..i]) + (if children[i].tag == "TriggerMarker" then [children[i]] else [])
  {
    assert children[..i + 1][..i] == children[..i];
  }

  /** Once the markers of a prefix raise, the markers of all the children raise the same. */
  lemma {:induction false} MarkersAbort(children: seq<Element>, n: nat)
    requires n <= |children| && Collect(Markers(children[..n]), TriggerEntry).Err?
    ensures Collect(Markers(children), TriggerEntry) == Collect(Markers(children[..n]), TriggerEntry)
    decreases |children| - n
  {
    if n < |children| {
      MarkersStep(children, n);
      if children[n].tag == "TriggerMarker" {
        CollectSnoc(Markers(children[..n]), children[n], TriggerEntry);
      } else {
        assert Markers(children[..n + 1]) == Markers(children[..n]);
      }
      MarkersAbort(children, n + 1);
    } else {
      assert children[..n] == children;
    }
  }

  /** parse_trigMarker: one entry per TriggerMarker child, in order; other children are skipped. */
  method ParseTrigMarker(root: Element) returns (r: Result<seq<Row>, Error>)
    ensures r == Finish(Collect(Markers(root.children), TriggerEntry))
  {
    var children := root.children;
    var entries: seq<Row> := [];
    for i := 0 to |children|
      invariant Collect(Markers(children[..i]), TriggerEntry) == Ok(entries)
    {
      var child := children[i];
      MarkersStep(children, i);
      if child.tag == "TriggerMarker" {
        var entry := DecodeTrigger(child);
        CollectSnoc(Markers(children[..i]), child, TriggerEntry);
        if entry.Err? {
          MarkersAbort(children, i + 1);
          return Err(entry.error);
        }
        entries := entries + [entry.value];
      } else {
        assert Markers(children[..i + 1]) == Markers(children[..i]);
      }
    }
    assert children[..|children|] == children;
    r := AtLeast2d(entries);
  }

  /** parse: the root's tag chooses the parser; any other tag raises naming it. */
  method Parse(root: Element) returns (r: Result<seq<Row>, Error>)
    ensures r == Parsed(root)
  {
    if root.tag == "GUMMarkerList" {
      r := ParseGumMarker(root);
    } else if root.tag == "TriggerMarkerList" {
      r := ParseTrigMarker(root);
    } else {
      r := Err(UnknownFormat(root.tag));
    }
  }

  /** The unknown-format error is raised exactly for roots that are neither marker list. */
  lemma ParseFormats(root: Element)
    ensures (Parsed(root).Err? && Parsed(root).error.UnknownFormat?) <==>
      root.tag != "GUMMarkerList" && root.tag != "TriggerMarkerList"
    ensures Parsed(root).Err? && Parsed(root).error.UnknownFormat? ==>
      Parsed(root).error.tag == root.tag
  {
    if root.tag == "GUMMarkerList" && Collect(root.children, GumEntry).Err? {
      CollectErr(root.children, GumEntry);
    } else if root.tag == "TriggerMarkerList" && Collect(Markers(root.children), TriggerEntry).Err? {
      var ms := Markers(root.children);
      CollectErr(ms, TriggerEntry);
      var k :| 0 <= k < |ms| && TriggerEntry(ms[k]) == Err(Collect(ms, TriggerEntry).error);
      TriggerEntryOk(ms[k]);
    }
  }

  /**
   * A trigger list parses exactly when every TriggerMarker child decodes;
   * row k is then the entry of the k-th marker, three cells wide, and a list
   * without markers gives one empty row.
   */
  lemma TriggerRows(root: Element)
    requires root.tag == "TriggerMarkerList"
    ensures Parsed(root).Ok? ==>
      forall k :: 0 <= k < |Markers(root.children)| ==> TriggerEntry(Markers(root.children)[k]).Ok?
    ensures (forall k :: 0 <= k < |Markers(root.children)| ==> TriggerEntry(Markers(root.children)[k]).Ok?) ==>
      Parsed(root).Ok?
    ensures Parsed(root).Ok? && |Markers(root.children)| == 0 ==> Parsed(root).value == [[]]
    ensures Parsed(root).Ok? && |Markers(root.children)| > 0 ==>
      var ms := Markers(root.children);
      |Parsed(root).value| == |ms| &&
      forall k :: 0 <= k < |ms| ==>
        TriggerEntry(ms[k]) == Ok(Parsed(root).value[k]) && |Parsed(root).value[k]| == 3
  {
    var ms := Markers(root.children);
    CollectOk(ms, TriggerEntry);
    forall k | 0 <= k < |ms|
      ensures TriggerEntry(ms[k]).Ok? ==> |TriggerEntry(ms[k]).value| == 3
    {
      TriggerEntryOk(ms[k]);
    }
    var rows := Collect(ms, TriggerEntry);
    assert Parsed(root) == Finish(rows);
    if rows.Ok? && |ms| > 0 {
      assert forall k :: 0 <= k < |ms| ==> |rows.value[k]| == 3;
      assert AtLeast2d(rows.value) == Ok(rows.value);
    } else if rows.Ok? {
      assert rows.value == [];
      assert Parsed(root) == Ok([[]]);
    } else {
      assert Parsed(root).Err?;
      assert !(forall k :: 0 <= k < |ms| ==> TriggerEntry(ms[k]).Ok?);
    }
  }

  /**
   * A GUM list without children gives one empty row. Otherwise it parses
   * exactly when every child has the path of first children and all those
   * elements carry as many attributes as the first child's; row k then
   * lists child k's values. A missing path raises the missing-child error,
   * and unequal widths (with every path present) the inhomogeneous-rows one.
   */
  lemma GumRows(root: Element)
    requires root.tag == "GUMMarkerList"
    ensures |root.children| == 0 ==> Parsed(root) == Ok([[]])
    ensures |root.children| > 0 ==>
      (Parsed(root).Ok? <==>
        (forall k :: 0 <= k < |root.children| ==> GumEntry(root.children[k]).Ok?) &&
        (forall k :: 0 <= k < |root.children| ==>
           |GumEntry(root.children[k]).value| == |GumEntry(root.children[0]).value|))
    ensures Parsed(root).Ok? && |root.children| > 0 ==>
      |Parsed(root).value| == |root.children| &&
      forall k :: 0 <= k < |root.children| ==> GumEntry(root.children[k]) == Ok(Parsed(root).value[k])
    ensures Parsed(root).Err? && Parsed(root).error == MissingChild <==>
      exists k :: 0 <= k < |root.children| && GumEntry(root.children[k]).Err?
    ensures Parsed(root).Err? && Parsed(root).error == InhomogeneousRows <==>
      (forall k :: 0 <= k < |root.children| ==> GumEntry(root.children[k]).Ok?) &&
      (exists k :: 0 <= k < |root.children| &&
         |GumEntry(root.children[k]).value| != |GumEntry(root.children[0]).value|)
  {
    CollectOk(root.children, GumEntry);
    if Collect(root.children, GumEntry).Err? {
      CollectErr(root.children, GumEntry);
    }
  }

  // ---------------------------------------------------------------------
  // The motor cortex landmark
  // ---------------------------------------------------------------------

  /** A point in a stereotactic coordinate system, in millimetres. */
  datatype Coord = Coord(x: real, y: real, z: real)

  /**
   * get_M1: the landmark of the left primary motor cortex in the named
   * coordinate system, mirrored across the midline for the right
   * hemisphere. The coordinate system is checked before the hemisphere.
   */
  function GetM1(hemisphere: string, cosys: string): (r: Result<Coord, Error>)
    ensures cosys != "MNI" && cosys != "Tailarach" ==> r == Err(UnknownCoordinateSystem)
    ensures (cosys == "MNI" || cosys == "Tailarach") ==>
      (r.Ok? <==> hemisphere == "L" || hemisphere == "R") &&
      (r.Err? ==> r.error == UnknownHemisphere)
  {
    var m1 :=
      if cosys == "MNI" then Some(Coord(-36.6300, -17.6768, 54.3147))
      else if cosys == "Tailarach" then Some(Coord(-37.0, -21.0, 58.0))
      else None;
    if m1.None? then Err(UnknownCoordinateSystem)
    else if hemisphere == "R" then Ok(m1.value.(x := -m1.value.x))
    else if hemisphere == "L" then Ok(m1.value)
    else Err(UnknownHemisphere)
  }

  /**
   * The two landmarks mirror each other: the right one is the left one with
   * x negated, y and z kept, and each lies on its own side of the midline.
   */
  lemma M1Mirror(cosys: string)
    requires cosys == "MNI" || cosys == "Tailarach"
    ensures GetM1("L", cosys).Ok? && GetM1("R", cosys).Ok?
    ensures GetM1("R", cosys).value ==
      Coord(-GetM1("L", cosys).value.x, GetM1("L", cosys).value.y, GetM1("L", cosys).value.z)
    ensures Label(GetM1("L", cosys).value) == L && Label(GetM1("R", cosys).value) == R
  {
  }

  /** The landmarks shift_origin aligns to: get_M1 with the defaults, MNI. */
  const LeftM1: Coord := Coord(-36.6300, -17.6768, 54.3147)
  const RightM1: Coord := Coord(36.6300, -17.6768, 54.3147)

  /** The landmark values, and the two unknown names, one in each argument. */
  lemma DefaultLandmarks()
    ensures GetM1("L", "MNI") == Ok(LeftM1) && GetM1("R", "MNI") == Ok(RightM1)
    ensures GetM1("L", "Tailarach") == Ok(Coord(-37.0, -21.0, 58.0))
    ensures GetM1("X", "MNI") == Err(UnknownHemisphere)
    ensures GetM1("L", "X") == Err(UnknownCoordinateSystem)
  {
  }

  // ---------------------------------------------------------------------
  // Hemispheres and centroids
  // ---------------------------------------------------------------------

  /** Left of the midline, right of it, or on it (the vertex line). */
  datatype Side = L | R | V

  /** The side a point's x coordinate puts it on. */
  function Label(p: Coord): Side
  {
    if p.x < 0.0 then L else if p.x > 0.0 then R else V
  }

  /** The points labelled side, in their original order. */
  function SidePoints(ps: seq<Coord>, side: Side): seq<Coord>
  {
    if |ps| == 0 then []
    else
      var last := ps[|ps| - 1];
      SidePoints(ps[..|ps| - 1], side) + (if Label(last) == side then [last] else [])
  }

  /** The three sides together keep every point once: their counts add up to the whole. */
  lemma {:induction false} SidesCount(ps: seq<Coord>)
    ensures |SidePoints(ps, L)| + |SidePoints(ps, R)| + |SidePoints(ps, V)| == |ps|
  {
    if |ps| > 0 {
      SidesCount(ps[..|ps| - 1]);
    }
  }

  /** A side keeps exactly the points labelled with it. */
  lemma {:induction false} SideMembers(ps: seq<Coord>, side: Side)
    ensures forall q :: q in SidePoints(ps, side) <==> q in ps && Label(q) == side
  {
    if |ps| > 0 {
      var init := ps[..|ps| - 1];
      SideMembers(init, side);
      assert ps == init + [ps[|ps| - 1]];
    }
  }

  function Plus(a: Coord, b: Coord): Coord
  {
    Coord(a.x + b.x, a.y + b.y, a.z + b.z)
  }

  function Minus(a: Coord, b: Coord): Coord
  {
    Coord(a.x - b.x, a.y - b.y, a.z - b.z)
  }

  /** The component-wise sum of the points. */
  function Sum(ps: seq<Coord>): Coord
  {
    if |ps| == 0 then Coord(0.0, 0.0, 0.0)
    else Plus(Sum(ps[..|ps| - 1]), ps[|ps| - 1])
  }

  /** np.mean(points, 0): the centroid, or the missing centroid (all NaN) for no points. */
  function Mean(ps: seq<Coord>): (m: Option<Coord>)
    ensures m.None? <==> |ps| == 0
  {
    if |ps| == 0 then None else Some(Divided(Sum(ps), |ps| as real))
  }

  /** Each component divided by n. */
  function Divided(s: Coord, n: real): Coord
    requires n > 0.0
  {
    Coord(s.x / n, s.y / n, s.z / n)
  }

  /** Each component multiplied by n. */
  function Scaled(d: Coord, n: real): Coord
  {
    Coord(n * d.x, n * d.y, n * d.z)
  }

  /** The sum of points that all lie left of the midline lies left of it. */
  lemma {:induction false} SumLeft(ps: seq<Coord>)
    requires |ps| > 0 && forall i :: 0 <= i < |ps| ==> ps[i].x < 0.0
    ensures Sum(ps).x < 0.0
  {
    if |ps| > 1 {
      SumLeft(ps[..|ps| - 1]);
    }
  }

  /** The sum of points that all lie right of the midline lies right of it. */
  lemma {:induction false} SumRight(ps: seq<Coord>)
    requires |ps| > 0 && forall i :: 0 <= i < |ps| ==> ps[i].x > 0.0
    ensures Sum(ps).x > 0.0
  {
    if |ps| > 1 {
      SumRight(ps[..|ps| - 1]);
    }
  }

  /** Every point kept for a side carries that side's label. */
  lemma {:induction false} SideLabels(ps: seq<Coord>, side: Side)
    ensures forall i :: 0 <= i < |SidePoints(ps, side)| ==> Label(SidePoints(ps, side)[i]) == side
  {
    if |ps| > 0 {
      SideLabels(ps[..|ps| - 1], side);
    }
  }

  /** A side keeps no point exactly when no point carries its label. */
  lemma {:induction false} SideEmpty(ps: seq<Coord>, side: Side)
    ensures |SidePoints(ps, side)| == 0 <==> forall i :: 0 <= i < |ps| ==> Label(ps[i]) != side
  {
    if |ps| > 0 {
      var init := ps[..|ps| - 1];
      SideEmpty(init, side);
      assert forall i :: 0 <= i < |init| ==> init[i] == ps[i];
    }
  }

  /**
   * A side's centroid is missing exactly when no point is labelled with
   * that side, and a present centroid lies on its own side of the midline.
   */
  lemma CentroidSide(ps: seq<Coord>, side: Side)
    requires side != V
    ensures Mean(SidePoints(ps, side)).None? <==> forall i :: 0 <= i < |ps| ==> Label(ps[i]) != side
    ensures Mean(SidePoints(ps, side)).Some? && side == L ==> Mean(SidePoints(ps, side)).value.x < 0.0
    ensures Mean(SidePoints(ps, side)).Some? && side == R ==> Mean(SidePoints(ps, side)).value.x > 0.0
  {
    SideEmpty(ps, side);
    var qs := SidePoints(ps, side);
    if |qs| > 0 {
      SideLabels(ps, side);
      if side == L {
        SumLeft(qs);
        DivideSign(Sum(qs).x, |qs| as real);
      } else {
        SumRight(qs);
        DivideSign(-Sum(qs).x, |qs| as real);
      }
    }
  }

  lemma DivideSign(s: real, n: real)
    requires s < 0.0 && n > 0.0
    ensures s / n < 0.0 && -s / n > 0.0
  {
    assert (s / n) * n == s;
    assert (-s / n) * n == -s;
  }

  /**
   * classify_hemisphere: each point's side in order, and the centroid of the
   * points on each side of the midline; points on it join neither side.
   */
  method ClassifyHemisphere(coords: seq<Coord>)
    returns (hemi: seq<Side>, lCoG: Option<Coord>, rCoG: Option<Coord>)
    ensures |hemi| == |coords| && forall k :: 0 <= k < |coords| ==> hemi[k] == Label(coords[k])
    ensures lCoG == Mean(SidePoints(coords, L)) && rCoG == Mean(SidePoints(coords, R))
  {
    hemi := [];
    var right: seq<Coord> := [];
    var left: seq<Coord> := [];
    for i := 0 to |coords|
      invariant |hemi| == i && forall k :: 0 <= k < i ==> hemi[k] == Label(coords[k])
      invariant left == SidePoints(coords[..i], L) && right == SidePoints(coords[..i], R)
    {
      var pos := coords[i];
      assert coords[..i + 1][..i] == coords[..i];
      if pos.x < 0.0 {
        left := left + [pos];
        hemi := hemi + [L];
      } else if pos.x > 0.0 {
        right := right + [pos];
        hemi := hemi + [R];
      } else {
        hemi := hemi + [V];
      }
    }
    assert coords[..|coords|] == coords;
    lCoG := Mean(left);
    rCoG := Mean(right);
  }

  // ---------------------------------------------------------------------
  // Moving the origin
  // ---------------------------------------------------------------------

  /** centroid - landmark: the translation taking a side's centroid onto its landmark (NaN when there is no centroid). */
  function Offset(cog: Option<Coord>, landmark: Coord): Option<Coord>
  {
    match cog
    case None => None
    case Some(c) => Some(Minus(c, landmark))
  }

  function LeftShift(coords: seq<Coord>): Option<Coord>
  {
    Offset(Mean(SidePoints(coords, L)), LeftM1)
  }

  function RightShift(coords: seq<Coord>): Option<Coord>
  {
    Offset(Mean(SidePoints(coords, R)), RightM1)
  }

  function ToRow(p: Coord): Row
  {
    [Num(p.x), Num(p.y), Num(p.z)]
  }

  /** pos - shift: subtracting a NaN offset makes every cell NaN. */
  function Translate(p: Coord, shift: Option<Coord>): Row
  {
    match shift
    case None => [NaN, NaN, NaN]
    case Some(d) => ToRow(Minus(p, d))
  }

  /** pos - [0, shift_y, shift_z]: a point on the midline keeps its x. */
  function VertexRow(p: Coord, rshift: Option<Coord>): Row
  {
    match rshift
    case None => [Num(p.x), NaN, NaN]
    case Some(d) => [Num(p.x), Num(p.y - d.y), Num(p.z - d.z)]
  }

  /** The row shift_origin emits for one point, given the two offsets. */
  function ShiftRow(p: Coord, lshift: Option<Coord>, rshift: Option<Coord>): Row
  {
    match Label(p)
    case L => Translate(p, lshift)
    case R => Translate(p, rshift)
    case V => VertexRow(p, rshift)
  }

  /**
   * shift_origin: every point, in order, moved by its side's offset; a
   * point on the midline by the right offset with its x left alone.
   */
  method ShiftOrigin(coords: seq<Coord>) returns (shifted: seq<Row>)
    ensures |shifted| == |coords|
    ensures forall k :: 0 <= k < |coords| ==>
      shifted[k] == ShiftRow(coords[k], LeftShift(coords), RightShift(coords))
  {
    var hemi, lcog, rcog := ClassifyHemisphere(coords);
    var rshift := Offset(rcog, RightM1);
    var lshift := Offset(lcog, LeftM1);
    shifted := [];
    for k := 0 to |coords|
      invariant |shifted| == k
      invariant forall j :: 0 <= j < k ==> shifted[j] == ShiftRow(coords[j], lshift, rshift)
    {
      var pos := coords[k];
      if hemi[k] == R {
        shifted := shifted + [Translate(pos, rshift)];
      } else if hemi[k] == L {
        shifted := shifted + [Translate(pos, lshift)];
      } else {
        shifted := shifted + [VertexRow(pos, rshift)];
      }
    }
  }

  /** Every point moved by the same offset. */
  function Moved(ps: seq<Coord>, d: Coord): (qs: seq<Coord>)
    ensures |qs| == |ps| && forall i :: 0 <= i < |ps| ==> qs[i] == Minus(ps[i], d)
  {
    seq(|ps|, i requires 0 <= i < |ps| => Minus(ps[i], d))
  }

  /** d added to itself n times. */
  function Times(n: nat, d: Coord): Coord
  {
    if n == 0 then Coord(0.0, 0.0, 0.0) else Plus(Times(n - 1, d), d)
  }

  /** Adding d to itself n times scales it by n. */
  lemma {:induction false} TimesScales(n: nat, d: Coord)
    ensures Times(n, d) == Scaled(d, n as real)
  {
    if n > 0 {
      TimesScales(n - 1, d);
      Distribute(n, d.x);
      Distribute(n, d.y);
      Distribute(n, d.z);
    }
  }

  lemma Distribute(n: nat, x: real)
    requires n > 0
    ensures n as real * x == (n - 1) as real * x + x
  {
  }

  /** Moving n points by d moves their sum by n times d. */
  lemma {:induction false} SumMoved(ps: seq<Coord>, d: Coord)
    ensures Sum(Moved(ps, d)) == Minus(Sum(ps), Times(|ps|, d))
  {
    if |ps| > 0 {
      var init := ps[..|ps| - 1];
      SumMoved(init, d);
      assert Moved(ps, d)[..|ps| - 1] == Moved(init, d);
    }
  }

  /** Dividing a sum moved by n times d by n moves the quotient by d. */
  lemma DivideMoved(s: Coord, n: real, d: Coord)
    requires n > 0.0
    ensures Divided(Minus(s, Scaled(d, n)), n) == Minus(Divided(s, n), d)
  {
    DivideOne(s.x, n, d.x);
    DivideOne(s.y, n, d.y);
    DivideOne(s.z, n, d.z);
  }

  lemma DivideOne(s: real, n: real, d: real)
    requires n > 0.0
    ensures (s - n * d) / n == s / n - d
  {
    assert (s - n * d) / n * n == s - n * d;
    assert (s / n - d) * n == s - n * d;
  }

  /** Moving points by d moves their centroid by d. */
  lemma MeanMoved(ps: seq<Coord>, d: Coord)
    requires |ps| > 0
    ensures Mean(Moved(ps, d)) == Some(Minus(Mean(ps).value, d))
  {
    SumMoved(ps, d);
    TimesScales(|ps|, d);
    DivideMoved(Sum(ps), |ps| as real, d);
  }

  /**
   * After shift_origin, every point of a side that has points is moved by
   * that side's offset, and the moved points have their centroid exactly on
   * the side's landmark.
   */
  lemma ShiftedCentroid(coords: seq<Coord>, side: Side)
    requires side != V && exists k :: 0 <= k < |coords| && Label(coords[k]) == side
    ensures var landmark := if side == L then LeftM1 else RightM1;
      var shift := if side == L then LeftShift(coords) else RightShift(coords);
      shift.Some? &&
      (forall k :: 0 <= k < |coords| && Label(coords[k]) == side ==>
        ShiftRow(coords[k], LeftShift(coords), RightShift(coords)) == ToRow(Minus(coords[k], shift.value))) &&
      Mean(Moved(SidePoints(coords, side), shift.value)) == Some(landmark)
  {
    CentroidSide(coords, side);
    var landmark := if side == L then LeftM1 else RightM1;
    var ps := SidePoints(coords, side);
    var c := Mean(ps).value;
    MeanMoved(ps, Minus(c, landmark));
  }

  /**
   * A point on the midline keeps x = 0; its y and z move by the right
   * offset, and become NaN when there are no right-hand points.
   */
  lemma VertexShift(coords: seq<Coord>, k: nat)
    requires k < |coords| && Label(coords[k]) == V
    ensures var row := ShiftRow(coords[k], LeftShift(coords), RightShift(coords));
      |row| == 3 && row[0] == Num(0.0) &&
      (row[1].NaN? <==> forall j :: 0 <= j < |coords| ==> Label(coords[j]) != R) &&
      (row[2].NaN? <==> forall j :: 0 <= j < |coords| ==> Label(coords[j]) != R) &&
      (RightShift(coords).Some? ==>
        row[1] == Num(coords[k].y - RightShift(coords).value.y) &&
        row[2] == Num(coords[k].z - RightShift(coords).value.z))
  {
    CentroidSide(coords, R);
  }

  /** The centroid of a single point is that point. */
  lemma MeanSingle(p: Coord)
    ensures Mean([p]) == Some(p)
  {
    assert [p][..0] == [];
    assert Sum([p]) == p;
  }

  /** Sorting the three points of the example by side. */
  lemma ExampleSides(p: Coord, q: Coord, o: Coord)
    requires Label(p) == L && Label(q) == R && Label(o) == V
    ensures SidePoints([p, q, o], L) == [p] && SidePoints([p, q, o], R) == [q]
  {
    var coords := [p, q, o];
    var c1, c2 := coords[..1], coords[..2];
    assert c2[..1] == c1 && c1[..0] == [];
    assert SidePoints(c1, L) == [p] && SidePoints(c1, R) == [];
    assert SidePoints(c2, L) == [p] && SidePoints(c2, R) == [q];
  }

  /**
   * One point on each side and one on the midline at unit distance: the
   * side points land on the landmarks and the midline point on the right
   * landmark with x = 0.
   */
  lemma ShiftOriginExample()
    ensures var coords := [Coord(-1.0, 0.0, 0.0), Coord(1.0, 0.0, 0.0), Coord(0.0, 0.0, 0.0)];
      Mean(SidePoints(coords, L)) == Some(coords[0]) &&
      Mean(SidePoints(coords, R)) == Some(coords[1]) &&
      ShiftRow(coords[0], LeftShift(coords), RightShift(coords)) == ToRow(LeftM1) &&
      ShiftRow(coords[1], LeftShift(coords), RightShift(coords)) == ToRow(RightM1) &&
      ShiftRow(coords[2], LeftShift(coords), RightShift(coords)) == [Num(0.0), Num(RightM1.y), Num(RightM1.z)]
  {
    var p, q, o := Coord(-1.0, 0.0, 0.0), Coord(1.0, 0.0, 0.0), Coord(0.0, 0.0, 0.0);
    ExampleSides(p, q, o);
    MeanSingle(p);
    MeanSingle(q);
    var coords := [p, q, o];
    assert LeftShift(coords) == Some(Minus(p, LeftM1));
    assert RightShift(coords) == Some(Minus(q, RightM1));
  }
}
