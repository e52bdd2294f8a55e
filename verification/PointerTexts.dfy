// What a pointer's text masks: the index texts of internal/plans/redact.go told
// by their digits, and the pointer of a place in a document told by what its
// redaction leaves.
module PointerTexts {
  import opened Json
  import opened Outcomes
  import opened Pointers
  import opened Redact
  import SemVer

  // ------------------------------------------------------------ index texts

  ghost predicate AllZeros(s: string) {
    forall i :: 0 <= i < |s| ==> s[i] == '0'
  }

  // A text of the index i: its decimal text, or a plus sign and that text, which
  // there may have further zeros in front.
  ghost predicate Spells(s: string, i: nat) {
    s == SemVer.Decimal(i) || exists zeros :: AllZeros(zeros) && s == "+" + zeros + SemVer.Decimal(i)
  }

  lemma {:induction false} DigitsRead(s: string)
    ensures Digits(s) == if SemVer.AllDigits(s) then Some(SemVer.Number(s)) else None
  {
    if s != "" {
      var init := s[..|s| - 1];
      DigitsRead(init);
      assert SemVer.AllDigits(s) <==> SemVer.AllDigits(init) && SemVer.IsDigit(s[|s| - 1]);
    }
  }

  lemma {:induction false} ZerosAdd(zeros: string, s: string)
    requires AllZeros(zeros) && SemVer.AllDigits(s)
    ensures SemVer.AllDigits(zeros + s) && SemVer.Number(zeros + s) == SemVer.Number(s)
  {
    if s != "" {
      ZerosAdd(zeros, s[..|s| - 1]);
      assert (zeros + s)[..|zeros + s| - 1] == zeros + s[..|s| - 1];
    } else if zeros != "" {
      ZerosAdd(zeros[..|zeros| - 1], "");
      assert zeros + "" == zeros && zeros[..|zeros| - 1] + "" == zeros[..|zeros| - 1];
    }
  }

  // Digits are zeros and the decimal text of the number they are read as.
  lemma {:induction false} DigitsAreDecimal(s: string) returns (zeros: string)
    requires s != "" && SemVer.AllDigits(s)
    ensures AllZeros(zeros) && s == zeros + SemVer.Decimal(SemVer.Number(s))
  {
    if s[0] == '0' && |s| > 1 {
      var rest := DigitsAreDecimal(s[1..]);
      zeros := "0" + rest;
      assert s == "0" + s[1..];
      ZerosAdd("0", s[1..]);
    } else {
      zeros := "";
      SemVer.DecimalOfNumber(s);
    }
  }

  // What the texts of an index are read as in an array of n items.
  function ReadAs(i: nat, n: nat): Index {
    if i > 0x7fff_ffff_ffff_ffff then Bad else if i < n then Slot(i) else Missing
  }

  // Each text of an index is read as that index: a slot of the array, missing
  // past its end, and malformed past the integers.
  lemma SpelledIndex(s: string, i: nat, n: nat)
    requires Spells(s, i)
    ensures ParseIndex(s, n) == ReadAs(i, n)
  {
    var d := SemVer.Decimal(i);
    SemVer.DecimalReads(i);
    if s == d {
      DigitsRead(d);
      assert SemVer.Decimal(0) == "0";
    } else {
      var zeros :| AllZeros(zeros) && s == "+" + zeros + d;
      assert s[1..] == zeros + d;
      ZerosAdd(zeros, d);
      DigitsRead(zeros + d);
    }
  }

  // Every other text is malformed.
  lemma OnlySpelled(s: string, n: nat)
    ensures !ParseIndex(s, n).Bad? ==> exists i :: Spells(s, i)
  {
    if !ParseIndex(s, n).Bad? {
      var digits := if s[0] == '+' then s[1..] else s;
      DigitsRead(digits);
      var zeros := DigitsAreDecimal(digits);
      if s[0] == '+' {
        assert s == "+" + zeros + SemVer.Decimal(SemVer.Number(digits));
      } else {
        SemVer.DecimalOfNumber(s);
      }
      assert Spells(s, SemVer.Number(digits));
    }
  }

  // ------------------------------------------------------------ places

  // A token of a step: the key itself, or a text of the index.
  ghost predicate TokenOf(token: string, step: Step) {
    match step case Key(k) => token == k case Idx(i) => Spells(token, i)
  }

  // The tokens spell the place: step by step its keys and texts of its indices.
  ghost predicate TokensOf(tokens: seq<string>, at: Location) {
    |tokens| == |at| && forall i :: 0 <= i < |at| ==> TokenOf(tokens[i], at[i])
  }

  // The indices on the way fit the integers, as those of a slice do.
  ghost predicate InRange(at: Location) {
    forall i :: 0 <= i < |at| && at[i].Idx? ==> at[i].i <= 0x7fff_ffff_ffff_ffff
  }

  // The tokens of a place that the document has lead to it.
  lemma {:induction false} PlaceFound(doc: Value, at: Location, tokens: seq<string>)
    requires At(doc, at).Some? && TokensOf(tokens, at) && InRange(at)
    ensures Walk(doc, tokens) == Found(at)
  {
    if at != [] {
      assert TokenOf(tokens[0], at[0]);
      assert at == [at[0]] + at[1..];
      match (doc, at[0])
      case (Obj(m), Key(k)) => PlaceFound(m[k], at[1..], tokens[1..]);
      case (Arr(items), Idx(i)) =>
        SpelledIndex(tokens[0], i, |items|);
        PlaceFound(items[i], at[1..], tokens[1..]);
    }
  }

  // Redaction by the pointer of a place that the document has: that place holds
  // the mask, and every place that is neither below it nor above it is as it
  // was.
  lemma PlaceMasked(doc: Value, at: Location, tokens: seq<string>, mask: Value)
    requires At(doc, at).Some? && at != [] && TokensOf(tokens, at) && InRange(at) && IsMask(mask)
    ensures var r := RedactAll(doc, [Format(tokens)], mask);
            && r.Ok?
            && At(r.value, at) == Some(mask)
            && forall other :: !(at <= other) && !(other <= at) ==> At(r.value, other) == At(doc, other)
  {
    var p := Format(tokens);
    ParseFormat(tokens);
    PlaceFound(doc, at, tokens);
    RedactOne(doc, p, at, mask);
    MaskedThere(doc, at, mask);
    forall other | !(at <= other) && !(other <= at)
      ensures At(MaskAll(doc, {at}, mask), other) == At(doc, other)
    {
      OutsideUnchanged(doc, {at}, mask, other);
    }
  }

  lemma RedactOne(doc: Value, p: string, at: Location, mask: Value)
    requires IsMask(mask) && Parse(p).Some? && Parse(p).value != [] && Walk(doc, Parse(p).value) == Found(at)
    ensures RedactAll(doc, [p], mask) == Ok(MaskAll(doc, {at}, mask))
  {
    AcceptableSnoc(doc, [], p);
    assert [] + [p] == [p];
    RedactAllMasks(doc, [p], mask);
    TargetsAdd(doc, [], p);
    assert Targets(doc, []) == {} && {} + {at} == {at};
  }

  lemma {:induction false} MaskedThere(v: Value, at: Location, mask: Value)
    requires At(v, at).Some?
    ensures At(MaskAll(v, {at}, mask), at) == Some(mask)
  {
    if at != [] {
      BelowAdd({}, at[0], at[1..]);
      assert at == [at[0]] + at[1..];
      assert {} + {at} == {at} && Below({}, at[0]) == {} && {} + {at[1..]} == {at[1..]};
      match (v, at[0])
      case (Obj(m), Key(k)) => MaskedThere(m[k], at[1..], mask);
      case (Arr(items), Idx(i)) => MaskedThere(items[i], at[1..], mask);
    }
  }

  lemma ElementRead(m: map<string, Value>, key: string, items: seq<Value>, text: string, mask: Value)
    requires key in m && m[key] == Arr(items)
    ensures RedactAll(Obj(m), [Format([key, text])], mask) ==
              match ParseIndex(text, |items|)
              case Bad => Err(MalformedIndex)
              case Missing => Ok(Obj(m))
              case Slot(i) => Ok(Obj(m[key := Arr(items[i := mask])]))
  {
    var tokens := [key, text];
    ParseFormat(tokens);
    assert tokens[1..] == [text];
    assert SetPointer(Arr(items), [text], mask) ==
             match ParseIndex(text, |items|)
             case Bad => Malformed
             case Missing => Absent
             case Slot(i) => Done(Arr(items[i := mask]));
    assert RedactAll(Obj(m), [Format(tokens)], mask) == RedactAt(Obj(m), Format(tokens), mask) by {
      assert [Format(tokens)][..0] == [];
    }
  }

  // The pointer made of a key and a text of i masks element i of the array at
  // that key, and every other element and member stays.
  lemma ElementMasked(m: map<string, Value>, key: string, items: seq<Value>, i: nat, text: string, mask: Value)
    requires key in m && m[key] == Arr(items) && i < |items| && i <= 0x7fff_ffff_ffff_ffff
    requires Spells(text, i)
    ensures RedactAll(Obj(m), [Format([key, text])], mask) == Ok(Obj(m[key := Arr(items[i := mask])]))
  {
    SpelledIndex(text, i, |items|);
    ElementRead(m, key, items, text, mask);
  }

  // An index past the end leaves the document alone, and one that no integer
  // holds refuses the redaction.
  lemma NoElement(m: map<string, Value>, key: string, items: seq<Value>, i: nat, text: string, mask: Value)
    requires key in m && m[key] == Arr(items) && Spells(text, i)
    ensures var r := RedactAll(Obj(m), [Format([key, text])], mask);
            && (|items| <= i <= 0x7fff_ffff_ffff_ffff ==> r == Ok(Obj(m)))
            && (i > 0x7fff_ffff_ffff_ffff ==> r == Err(MalformedIndex))
  {
    SpelledIndex(text, i, |items|);
    ElementRead(m, key, items, text, mask);
  }

  // A text that spells no index refuses it too.
  lemma NotAnIndex(m: map<string, Value>, key: string, items: seq<Value>, text: string, mask: Value)
    requires key in m && m[key] == Arr(items) && forall i :: !Spells(text, i)
    ensures RedactAll(Obj(m), [Format([key, text])], mask) == Err(MalformedIndex)
  {
    OnlySpelled(text, |items|);
    ElementRead(m, key, items, text, mask);
  }
}
