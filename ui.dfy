/** The content of a `trezor.ui.text.Text` widget, as a value: its title,
    its icon and the styled lines appended to it. Colours, fonts and the
    rendering itself are not modelled. */
module Ui {
  import opened Utils

  datatype Style = Bold | Normal | Mono

  datatype Icon = IconSend | IconConfirm

  datatype Line = Line(style: Style, text: string)

  /** One line of `style` per item, in order. */
  function Styled(style: Style, items: seq<string>): seq<Line>
  {
    seq(|items|, i requires 0 <= i < |items| => Line(style, items[i]))
  }

  /** A prompt: what `Text(title, icon)` holds after its appends. */
  datatype Text = Text(title: string, icon: Icon, lines: seq<Line>) {

    /** `text.bold(*items)`, `text.normal(*items)`, `text.mono(*items)`:
        each item becomes one more line of that style. */
    function Add(style: Style, items: seq<string>): Text
    {
      Text(title, icon, lines + Styled(style, items))
    }
  }

  /** `Text(title, icon)` before anything is appended. */
  function NewText(title: string, icon: Icon): Text
  {
    Text(title, icon, [])
  }

  /** Everything the lines of one style show, read in order. */
  function Content(lines: seq<Line>, style: Style): string
  {
    if lines == [] then ""
    else (if lines[0].style == style then lines[0].text else "") + Content(lines[1..], style)
  }

  lemma {:induction false} ContentAppend(a: seq<Line>, b: seq<Line>, style: Style)
    ensures Content(a + b, style) == Content(a, style) + Content(b, style)
  {
    if a == [] {
      assert a + b == b;
    } else {
      assert (a + b)[1..] == a[1..] + b;
      ContentAppend(a[1..], b, style);
    }
  }

  /** Lines of one style show exactly their items; other styles see nothing. */
  lemma {:induction false} ContentStyled(style: Style, items: seq<string>, other: Style)
    ensures Content(Styled(style, items), other) == if style == other then Flatten(items) else ""
  {
    if items != [] {
      assert Styled(style, items)[1..] == Styled(style, items[1..]);
      ContentStyled(style, items[1..], other);
    }
  }

  /** `lines` lay `s` out in `style`, `width` characters to a line: no line
      is empty or wider than `width`, all but the last are full, and reading
      them in order gives `s` back. */
  predicate Wraps(lines: seq<Line>, style: Style, s: string, width: nat)
  {
    && (forall i :: 0 <= i < |lines| ==> lines[i].style == style && 0 < |lines[i].text| <= width)
    && (forall i :: 0 <= i < |lines| - 1 ==> |lines[i].text| == width)
    && Content(lines, style) == s
  }

  /** Appending the chunks of `s` as lines of `style` wraps `s`. */
  lemma WrapsChunks(style: Style, s: string, width: nat)
    requires width > 0
    ensures Wraps(Styled(style, Chunks(s, width)), style, s, width)
  {
    ContentStyled(style, Chunks(s, width), style);
  }

  /** Conversely, the chunked lines are the only wrapping of `s`. */
  lemma {:induction false} WrapsUnique(lines: seq<Line>, style: Style, s: string, width: nat)
    requires width > 0 && Wraps(lines, style, s, width)
    ensures lines == Styled(style, Chunks(s, width))
  {
    if lines == [] {
      assert s == "";
    } else {
      var t := lines[0].text;
      var rest := Content(lines[1..], style);
      assert s == t + rest;
      if |lines| == 1 {
        assert rest == "";
        assert Chunks(s, width) == [s];
      } else {
        assert Content(lines[1..], style) == lines[1].text + Content(lines[2..], style);
        assert |s| > width;
        assert s[..width] == t && s[width..] == rest;
        WrapsUnique(lines[1..], style, rest, width);
        assert lines == [Line(style, t)] + lines[1..];
      }
    }
  }
}
