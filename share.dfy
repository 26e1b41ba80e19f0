/**
 * The text `handleShare` (App.tsx) builds from the current result: a
 * header line, a blank line, the two sign names, the star count with the
 * score fraction, a blank line, the quoted prediction, a blank line and a
 * hashtag footer.
 */
module Share {
  import opened Wrappers
  import opened Types
  import opened Find
  import opened Lines

  const Header := "🔮 เช็กดวงคู่สมพงศ์ กับ การะเกต์พยากรณ์"
  const Footer := "#DestinyMatcher #ดูดวง #คู่สมพงศ์"

  // ---------------------------------------------------------------------------
  // Numbers as a template literal renders them (integers only)
  // ---------------------------------------------------------------------------

  predicate IsDigit(c: char) {
    '0' <= c <= '9'
  }

  function DigitChar(d: nat): (c: char)
    requires d < 10
    ensures IsDigit(c) && c as int - '0' as int == d
  {
    ('0' as int + d) as char
  }

  /** The decimal digits of `n`, most significant first, without leading zeros. */
  function NatToDecimal(n: nat): (s: string)
    ensures |s| > 0
    ensures forall i :: 0 <= i < |s| ==> IsDigit(s[i])
    ensures |s| > 1 ==> s[0] != '0'
  {
    if n < 10 then [DigitChar(n)] else NatToDecimal(n / 10) + [DigitChar(n % 10)]
  }

  /** `${n}` for an integer `n`. */
  function IntToString(n: int): (s: string)
    ensures '\n' !in s
  {
    if n < 0 then "-" + NatToDecimal(-n) else NatToDecimal(n)
  }

  /** Reads back a string of decimal digits. */
  function ParseDecimal(s: string): int {
    if s == [] then 0 else ParseDecimal(s[..|s| - 1]) * 10 + (s[|s| - 1] as int - '0' as int)
  }

  /** Reads back an optionally negative decimal number. */
  function ParseInt(s: string): int {
    if |s| > 0 && s[0] == '-' then -ParseDecimal(s[1..]) else ParseDecimal(s)
  }

  lemma {:induction false} DecimalRoundTrip(n: nat)
    ensures ParseDecimal(NatToDecimal(n)) == n
  {
    if n >= 10 {
      DecimalRoundTrip(n / 10);
      var s := NatToDecimal(n);
      assert s[..|s| - 1] == NatToDecimal(n / 10);
    }
  }

  /** The rendered number reads back as the number: no information is lost in the share text. */
  lemma IntRoundTrip(n: int)
    ensures ParseInt(IntToString(n)) == n
  {
    if n < 0 {
      DecimalRoundTrip(-n);
      assert IntToString(n)[1..] == NatToDecimal(-n);
    } else {
      DecimalRoundTrip(n);
    }
  }

  // ---------------------------------------------------------------------------
  // The share text
  // ---------------------------------------------------------------------------

  /** `${name}` where `name` may be undefined, as `find(...)?.name` gives for an unknown id. */
  function Display(name: Option<string>): string {
    match name
    case Some(n) => n
    case None => "undefined"
  }

  /** `ZODIAC_SIGNS.find(z => z.id === id)?.name`: the name of the first sign with that id. */
  function SignName(signs: seq<ZodiacSign>, id: int): (name: Option<string>)
    ensures name.None? <==> forall i :: 0 <= i < |signs| ==> signs[i].id != id
    ensures name.Some? ==>
      exists i :: && 0 <= i < |signs| && signs[i].id == id && signs[i].name == name.value
                  && forall j :: 0 <= j < i ==> signs[j].id != id
  {
    match FindIndex(signs, (z: ZodiacSign) => z.id == id, 0)
    case Some(i) => Some(signs[i].name)
    case None => None
  }

  function NamesLine(myName: Option<string>, partnerName: Option<string>): string {
    Display(myName) + " ❤️ " + Display(partnerName)
  }

  function ScoreLine(result: PredictionResult): string {
    "ความเข้ากันได้: " + IntToString(result.stars) + " ดาว ("
      + IntToString(result.totalScore) + "/" + IntToString(result.maxScore) + " คะแนน)"
  }

  function QuotedLine(text: string): string {
    "\"" + text + "\""
  }

  /** The share text, concatenated part by part as the template does. */
  function ShareMessage(myName: Option<string>, partnerName: Option<string>, result: PredictionResult): string {
    Header + "\n\n"
      + NamesLine(myName, partnerName) + "\n"
      + ScoreLine(result) + "\n\n"
      + QuotedLine(result.predictionText) + "\n\n"
      + Footer
  }

  lemma HeaderFooterSingleLine()
    ensures '\n' !in Header && '\n' !in Footer
  {
    HeaderSingleLine();
    FooterSingleLine();
  }

  lemma HeaderSingleLine()
    ensures '\n' !in Header
  {
  }

  lemma FooterSingleLine()
    ensures '\n' !in Footer
  {
  }

  lemma NamesSingleLine(myName: Option<string>, partnerName: Option<string>)
    requires '\n' !in Display(myName) && '\n' !in Display(partnerName)
    ensures '\n' !in NamesLine(myName, partnerName)
  {
    var heart := " ❤️ ";
    assert '\n' !in heart;
    assert NamesLine(myName, partnerName) == Display(myName) + heart + Display(partnerName);
  }

  lemma ScoreSingleLine(result: PredictionResult)
    ensures '\n' !in ScoreLine(result)
  {
    var a, b, c, d := "ความเข้ากันได้: ", " ดาว (", "/", " คะแนน)";
    assert '\n' !in a && '\n' !in b && '\n' !in c && '\n' !in d;
    var stars, total, max := IntToString(result.stars), IntToString(result.totalScore), IntToString(result.maxScore);
    assert ScoreLine(result) == a + stars + b + total + c + max + d;
  }

  /**
   * Read line by line, the share text is, in order: the header, a blank
   * line, the names, the score line, a blank line, the quoted prediction, a
   * blank line and the footer - provided the names and the prediction hold
   * no line break themselves.
   */
  lemma ShareMessageLines(myName: Option<string>, partnerName: Option<string>, result: PredictionResult)
    requires '\n' !in Display(myName) && '\n' !in Display(partnerName) && '\n' !in result.predictionText
    ensures SplitLines(ShareMessage(myName, partnerName, result)) == [
      Header, "",
      NamesLine(myName, partnerName),
      ScoreLine(result), "",
      QuotedLine(result.predictionText), "",
      Footer]
  {
    var names, score, quoted := NamesLine(myName, partnerName), ScoreLine(result), QuotedLine(result.predictionText);
    HeaderFooterSingleLine();
    NamesSingleLine(myName, partnerName);
    ScoreSingleLine(result);
    TemplateLines(Header, names, score, quoted, Footer);
  }

  /** Whatever the names and the prediction hold, the share text opens with the header line. */
  lemma HeaderFirstLine(myName: Option<string>, partnerName: Option<string>, result: PredictionResult)
    ensures SplitLines(ShareMessage(myName, partnerName, result))[0] == Header
  {
    var names, score, quoted := NamesLine(myName, partnerName), ScoreLine(result), QuotedLine(result.predictionText);
    SplitTemplate(Header, names, score, quoted, Footer);
    HeaderFooterSingleLine();
    SplitSingleLine(Header);
  }
}
