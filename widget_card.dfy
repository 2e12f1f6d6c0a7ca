/**
 * `WidgetCard`: one testimonial shown in the widget's colours. The element
 * tree is modelled as the values it shows: the border and background
 * colours, the text colour, the quoted text and the footer line.
 */
module WidgetCard {
  import opened Wrappers
  import opened Records

  datatype Card = Card(
    borderColor: string,
    background: string,
    textColor: string,
    quote: string,
    footer: string)

  /**
   * The footer opens with the dash characters exactly as the component's
   * source text holds them: an em dash whose UTF-8 bytes were re-read as
   * Windows-1252, i.e. the three characters U+00E2 U+20AC U+201D.
   */
  const DASH: string := "\U{E2}\U{20AC}\U{201D}"

  /** `{part && `, ${part}`}`: nothing for an absent or empty part, else ", part". */
  function OptionalPart(part: Option<string>): (r: string)
    ensures r == "" <==> !Truthy(part)
    ensures Truthy(part) ==> |r| == |part.value| + 2 && r[..2] == ", " && r[2..] == part.value
  {
    if Truthy(part) then ", " + part.value else ""
  }

  /** The footer line: dash, name, then title and company each only when present. */
  function Footer(t: Testimonial): (f: string)
    ensures |f| == |DASH| + 3 + |t.customerName| + |OptionalPart(t.customerTitle)| + |OptionalPart(t.customerCompany)|
    ensures f[..|DASH| + 1 + |t.customerName|] == DASH + " " + t.customerName
    ensures var n := |DASH| + 1 + |t.customerName|;
            var title := OptionalPart(t.customerTitle);
            && f[n..n + 1 + |title| + 1] == " " + title + " "
            && f[n + 1 + |title| + 1..] == OptionalPart(t.customerCompany)
  {
    DASH + " " + t.customerName + " " + OptionalPart(t.customerTitle) + " " + OptionalPart(t.customerCompany)
  }

  /** With neither title nor company, the footer is the name alone, followed by the two separating spaces. */
  lemma FooterWithoutParts(t: Testimonial)
    requires !Truthy(t.customerTitle) && !Truthy(t.customerCompany)
    ensures Footer(t) == DASH + " " + t.customerName + "  "
  {
    assert OptionalPart(t.customerTitle) == "" && OptionalPart(t.customerCompany) == "";
  }

  /** The text in double quotes. */
  function Quote(text: string): (q: string)
    ensures |q| == |text| + 2 && q[0] == '"' && q[|q| - 1] == '"' && q[1..|q| - 1] == text
  {
    "\"" + text + "\""
  }

  /** The card takes its border, background and text colours from the configuration. */
  function CardOf(t: Testimonial, config: WidgetConfig): (c: Card)
    ensures c.borderColor == config.primaryColor
    ensures c.background == config.backgroundColor
    ensures c.textColor == config.textColor
    ensures c.quote == Quote(t.text) && c.footer == Footer(t)
  {
    Card(config.primaryColor, config.backgroundColor, config.textColor, Quote(t.text), Footer(t))
  }
}
