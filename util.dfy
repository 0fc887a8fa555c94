/**
 The `/subscribe` command argument parser. Splitting follows Go's
 `strings.Split(s, " ")`: every single space separates two pieces, so empty
 pieces appear around leading, trailing or repeated spaces. The float parser is
 a parameter: a partial function from text to a number.
 */
module CommandParser {
  import opened Wrappers

  /** The number of space characters in `s`. */
  function Spaces(s: string): nat {
    if s == [] then 0 else (if s[0] == ' ' then 1 else 0) + Spaces(s[1..])
  }

  /** The pieces joined back together with one space between neighbours. */
  function Join(pieces: seq<string>): string {
    if |pieces| == 0 then ""
    else if |pieces| == 1 then pieces[0]
    else pieces[0] + " " + Join(pieces[1..])
  }

  /** `strings.Split(s, " ")`: one more piece than there are spaces, none containing a space, and joining them gives `s` back. */
  function Split(s: string): (pieces: seq<string>)
    ensures |pieces| == Spaces(s) + 1
    ensures forall i :: 0 <= i < |pieces| ==> ' ' !in pieces[i]
    ensures Join(pieces) == s
  {
    if s == [] then [""]
    else
      var rest := Split(s[1..]);
      if s[0] == ' ' then
        assert s == " " + Join(rest);
        [""] + rest
      else
        var pieces := [[s[0]] + rest[0]] + rest[1..];
        assert forall i :: 1 <= i < |pieces| ==> pieces[i] == rest[i];
        assert Join(pieces) == [s[0]] + Join(rest) by {
          if |rest| > 1 {
            assert pieces[1..] == rest[1..];
            assert Join(rest) == rest[0] + " " + Join(rest[1..]);
          }
        }
        assert s == [s[0]] + s[1..];
        pieces
  }

  /** A space-free word in front of `t` extends the first piece of `t` and leaves the other pieces alone. */
  lemma {:induction false} SplitWordPrefix(w: string, t: string)
    requires ' ' !in w
    ensures Split(w + t) == [w + Split(t)[0]] + Split(t)[1..]
  {
    var st := Split(t);
    if w == [] {
      assert w + t == t;
      assert w + st[0] == st[0];
      assert st == [st[0]] + st[1..];
    } else {
      var s := w + t;
      assert s != [] && s[0] == w[0] && w[0] != ' ';
      assert s[1..] == w[1..] + t;
      SplitWordPrefix(w[1..], t);
      var rest := Split(s[1..]);
      assert rest == [w[1..] + st[0]] + st[1..];
      assert Split(s) == [[s[0]] + rest[0]] + rest[1..];
      assert [w[0]] + (w[1..] + st[0]) == w + st[0];
    }
  }

  /** Splitting undoes joining, for pieces that contain no space. */
  lemma {:induction false} SplitJoin(pieces: seq<string>)
    requires |pieces| >= 1
    requires forall i :: 0 <= i < |pieces| ==> ' ' !in pieces[i]
    ensures Split(Join(pieces)) == pieces
  {
    if |pieces| == 1 {
      SplitWordPrefix(pieces[0], "");
    } else {
      var rest := pieces[1..];
      assert forall i :: 0 <= i < |rest| ==> rest[i] == pieces[i + 1];
      SplitJoin(rest);
      var u := " " + Join(rest);
      assert Join(pieces) == pieces[0] + u;
      SplitWordPrefix(pieces[0], u);
      assert u[0] == ' ' && u[1..] == Join(rest);
      assert Split(u) == [""] + rest;
      assert pieces[0] + "" == pieces[0];
      assert pieces == [pieces[0]] + rest;
    }
  }

  datatype ParseError = BadPayload | BadThreshold {
    function Text(): string {
      match this
      case BadPayload => "bad payload received"
      case BadThreshold => "bad threshold received"
    }
  }

  /** Go's four results: category, operator, threshold and error. */
  datatype Parsed = Parsed(txType: string, operator: string, threshold: real, err: Option<ParseError>)

  /** `strconv.ParseFloat`, abstracted: `None` where Go reports an error. */
  type FloatParser = string -> Option<real>

  /**
   Splits the payload into category, operator and threshold text and parses the
   threshold. Nothing is checked about the category, operator or range here.
   */
  function ParseSubscriptionPayload(payload: string, parseFloat: FloatParser): (r: Parsed)
    ensures Spaces(payload) != 2 ==> r == Parsed("", "", 0.0, Some(BadPayload))
    ensures Spaces(payload) == 2 && parseFloat(Split(payload)[2]).None? ==>
              r == Parsed("", "", 0.0, Some(BadThreshold))
    ensures r.err.None? <==> Spaces(payload) == 2 && parseFloat(Split(payload)[2]).Some?
    ensures r.err.Some? ==>
              r.err.value.Text() == (if Spaces(payload) != 2 then "bad payload received" else "bad threshold received")
    ensures r.err.None? ==>
              && ' ' !in r.txType && ' ' !in r.operator
              && payload == r.txType + " " + r.operator + " " + Split(payload)[2]
              && parseFloat(Split(payload)[2]) == Some(r.threshold)
  {
    var splitted := Split(payload);
    if !(|splitted| == 3) then
      Parsed("", "", 0.0, Some(BadPayload))
    else
      match parseFloat(splitted[2])
      case None => Parsed("", "", 0.0, Some(BadThreshold))
      case Some(threshold) =>
        assert splitted[1..][1..] == [splitted[2]];
        assert Join(splitted[1..]) == splitted[1] + " " + splitted[2];
        Parsed(splitted[0], splitted[1], threshold, None)
  }

  /**
   The parser on a payload built from three space-free words: the words come back
   verbatim when the third parses, and the threshold error is reported otherwise.
   */
  lemma ParseOfWords(a: string, b: string, c: string, parseFloat: FloatParser)
    requires ' ' !in a && ' ' !in b && ' ' !in c
    ensures ParseSubscriptionPayload(a + " " + b + " " + c, parseFloat) ==
              match parseFloat(c)
              case Some(x) => Parsed(a, b, x, None)
              case None => Parsed("", "", 0.0, Some(BadThreshold))
  {
    var pieces := [a, b, c];
    assert Join(pieces) == a + " " + b + " " + c by {
      assert pieces[1..] == [b, c];
      assert Join([b, c]) == b + " " + c by { assert [b, c][1..] == [c]; }
    }
    SplitJoin(pieces);
  }

}
