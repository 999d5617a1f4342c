/** `Log::Line`: a copy of a parsed line that owns its text, its views rebased onto the copy. */
module OwnedLine {
  import opened StringViews
  import opened TimeDetail
  import opened LogParser

  datatype Line = Line(text: string, timeView: View, time: TimePoint, name: View, message: View)

  /** The views of the copy lie inside its text. */
  predicate ViewsOk(l: Line) {
    InBounds(l.timeView, |l.text|) && InBounds(l.name, |l.text|) && InBounds(l.message, |l.text|)
  }

  /** `copy_view`: the assertion in the source asks that v does not start before base. */
  function Rebased(v: View, base: View): View
    requires base.off <= v.off
  {
    View(v.off - base.off, v.len)
  }

  /** `copyLineViewImpl` */
  function CopyLineView(data: string, v: LineView): Line
    requires InBounds(v.line, |data|)
    requires v.line.off <= v.timeView.off && v.line.off <= v.name.off && v.line.off <= v.message.off
  {
    Line(Text(data, v.line), Rebased(v.timeView, v.line), v.time, Rebased(v.name, v.line), Rebased(v.message, v.line))
  }

  /** `copyLineImpl` */
  function CopyLine(l: Line): Line {
    var whole := View(0, |l.text|);
    Line(l.text, Rebased(l.timeView, whole), l.time, Rebased(l.name, whole), Rebased(l.message, whole))
  }

  function LineEntry(l: Line): Entry
    requires ViewsOk(l)
  {
    Entry(l.time, Text(l.text, l.name), Text(l.text, l.message))
  }

  /** The copy says what the original says, whatever becomes of the downloaded data. */
  lemma CopyKeepsContent(data: string, v: LineView)
    requires InBounds(v.line, |data|) && WellPlaced(v)
    ensures var l := CopyLineView(data, v);
      && ViewsOk(l)
      && LineEntry(l) == EntryAt(data, v)
      && Text(l.text, l.timeView) == Text(data, v.timeView)
  {
    var base, end := v.line.off, v.line.off + v.line.len;
    var t, n, m := Rebased(v.timeView, v.line), Rebased(v.name, v.line), Rebased(v.message, v.line);
    SliceOfSlice(data, base, end, t.off, t.off + t.len);
    SliceOfSlice(data, base, end, n.off, n.off + n.len);
    SliceOfSlice(data, base, end, m.off, m.off + m.len);
  }

  /** A copy of a copy says the same, its views again in its own text. */
  lemma CopyOfCopy(l: Line)
    requires ViewsOk(l)
    ensures var copy := CopyLine(l);
      && ViewsOk(copy)
      && LineEntry(copy) == LineEntry(l)
      && copy.text == l.text && Text(copy.text, copy.timeView) == Text(l.text, l.timeView)
  {
  }
}
