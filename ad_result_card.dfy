/** One result card: the text it copies, the character count it shows, and
    the `copied` flag of its copy button. */
module AdResultCard {
  import opened AdTypes
  import opened TextLines

  /** The copied text: headline, body and call-to-action line, separated by blank lines. */
  function FullText(r: AdResult): string {
    r.headline + "\n\n" + r.body + "\n\n" + r.ctaLine
  }

  /** The character count shown on the card. */
  function DisplayedLength(r: AdResult): (n: nat)
    ensures n == |r.headline| + |r.body| + |r.ctaLine| + 4
  {
    |FullText(r)|
  }

  /** Where each part sits in the copied text. */
  lemma FullTextLayout(r: AdResult)
    ensures var t, h, b := FullText(r), |r.headline|, |r.body|;
      && t[..h] == r.headline
      && t[h..h + 2] == "\n\n"
      && t[h + 2..h + 2 + b] == r.body
      && t[h + 2 + b..h + 4 + b] == "\n\n"
      && t[h + 4 + b..] == r.ctaLine
  {
  }

  /** Only headline, body and call-to-action line reach the copied text: the
      explanation, id, timestamp and form data never do. */
  lemma FullTextIgnoresOtherFields(r: AdResult, s: AdResult)
    requires r.headline == s.headline && r.body == s.body && r.ctaLine == s.ctaLine
    ensures FullText(r) == FullText(s)
  {
  }

  /** When the three parts are single lines, the copied text splits back into
      them, with one blank line between each two. */
  lemma FullTextSplitsBack(r: AdResult)
    requires SingleLine(r.headline) && SingleLine(r.body) && SingleLine(r.ctaLine)
    ensures SplitLines(FullText(r)) == [r.headline, "", r.body, "", r.ctaLine]
  {
    var ls := [r.headline, "", r.body, "", r.ctaLine];
    assert JoinLines(ls[4..]) == r.ctaLine;
    assert JoinLines(ls[3..]) == "\n" + r.ctaLine;
    assert JoinLines(ls[2..]) == r.body + "\n\n" + r.ctaLine;
    assert JoinLines(ls[1..]) == "\n" + r.body + "\n\n" + r.ctaLine;
    assert JoinLines(ls) == FullText(r);
    SplitJoin(ls);
  }

  /** The card's state: the ad it shows and whether its text was just copied. */
  class ResultCard {
    const result: AdResult
    var copied: bool

    constructor (result: AdResult)
      ensures this.result == result && !copied
    {
      this.result := result;
      copied := false;
    }

    /** Writes the copy text to the clipboard; `writeSucceeds` is whether the
        clipboard accepted it. `copied` becomes true only after a successful
        write; a failed write leaves it as it was. */
    method HandleCopy(writeSucceeds: bool) returns (written: string)
      modifies this
      ensures written == FullText(result)
      ensures copied == (writeSucceeds || old(copied))
    {
      written := FullText(result);
      if writeSucceeds {
        copied := true;
      }
    }
  }
}
