/**
 * The comma-separated list fields of the registration and profile forms
 * (skills, portfolio links): the text is split on ',', every piece trimmed and
 * empty pieces dropped; a stored list is shown in the form joined with ", ".
 */
module CommaList {
  import opened Text

  /** `pieces.map(p => p.trim())`. */
  function TrimAll(pieces: seq<string>): (r: seq<string>)
    ensures |r| == |pieces|
  {
    if pieces == [] then [] else [Trim(pieces[0])] + TrimAll(pieces[1..])
  }

  lemma {:induction false} TrimAllAt(pieces: seq<string>, k: nat)
    requires k < |pieces|
    ensures TrimAll(pieces)[k] == Trim(pieces[k])
  {
    if k > 0 {
      TrimAllAt(pieces[1..], k - 1);
    }
  }

  /** `pieces.filter(p => p)`: the non-empty pieces, in order. */
  function NonEmpty(pieces: seq<string>): (r: seq<string>)
    ensures |r| <= |pieces|
    ensures forall k :: 0 <= k < |r| ==> r[k] != []
  {
    if pieces == [] then []
    else if pieces[0] == [] then NonEmpty(pieces[1..])
    else [pieces[0]] + NonEmpty(pieces[1..])
  }

  /**
   * `text.split(',').map(s => s.trim()).filter(s => s)`: at most one entry per
   * comma-separated piece, and none of them empty.
   */
  function Parse(text: string): (entries: seq<string>)
    ensures |entries| <= |Split(text, ',')|
    ensures forall k :: 0 <= k < |entries| ==> entries[k] != []
  {
    NonEmpty(TrimAll(Split(text, ',')))
  }

  /** `list.join(', ')`: empty for no entries, the entry itself for one. */
  function Format(list: seq<string>): (text: string)
    ensures list == [] ==> text == ""
    ensures |list| == 1 ==> text == list[0]
    ensures |list| > 1 ==> |text| >= |list[0]| + 2 && text[..|list[0]| + 2] == list[0] + ", "
  {
    Join(list, ", ")
  }

  /** An entry that survives parsing: non-empty, trimmed and without a comma. */
  predicate IsEntry(s: string) {
    s != [] && Trimmed(s) && ',' !in s
  }

  lemma {:induction false} TrimAllAppend(a: seq<string>, b: seq<string>)
    ensures TrimAll(a + b) == TrimAll(a) + TrimAll(b)
  {
    if a == [] {
      assert a + b == b;
    } else {
      var ab := a + b;
      assert ab[0] == a[0];
      assert ab[1..] == a[1..] + b;
      TrimAllAppend(a[1..], b);
      calc {
        TrimAll(ab);
        [Trim(a[0])] + TrimAll(ab[1..]);
        [Trim(a[0])] + (TrimAll(a[1..]) + TrimAll(b));
        ([Trim(a[0])] + TrimAll(a[1..])) + TrimAll(b);
      }
    }
  }

  lemma {:induction false} NonEmptyAppend(a: seq<string>, b: seq<string>)
    ensures NonEmpty(a + b) == NonEmpty(a) + NonEmpty(b)
  {
    if a == [] {
      assert a + b == b;
    } else {
      var ab := a + b;
      assert ab[0] == a[0];
      assert ab[1..] == a[1..] + b;
      NonEmptyAppend(a[1..], b);
      if a[0] == [] {
        calc {
          NonEmpty(ab);
          NonEmpty(ab[1..]);
          NonEmpty(a[1..]) + NonEmpty(b);
          NonEmpty(a) + NonEmpty(b);
        }
      } else {
        calc {
          NonEmpty(ab);
          [a[0]] + NonEmpty(ab[1..]);
          [a[0]] + (NonEmpty(a[1..]) + NonEmpty(b));
          ([a[0]] + NonEmpty(a[1..])) + NonEmpty(b);
          NonEmpty(a) + NonEmpty(b);
        }
      }
    }
  }

  /** Dropping empty pieces keeps only pieces that were there. */
  lemma {:induction false} NonEmptyEntries(pieces: seq<string>)
    requires forall k :: 0 <= k < |pieces| ==> Trimmed(pieces[k]) && ',' !in pieces[k]
    ensures forall k :: 0 <= k < |NonEmpty(pieces)| ==> IsEntry(NonEmpty(pieces)[k])
  {
    if pieces != [] {
      NonEmptyEntries(pieces[1..]);
    }
  }

  /** Every parsed entry is non-empty, trimmed and free of commas. */
  lemma ParseEntries(text: string)
    ensures forall k :: 0 <= k < |Parse(text)| ==> IsEntry(Parse(text)[k])
  {
    var pieces := Split(text, ',');
    var trimmed := TrimAll(pieces);
    forall k | 0 <= k < |trimmed|
      ensures Trimmed(trimmed[k]) && ',' !in trimmed[k]
    {
      assert ',' !in pieces[k];
      TrimAllAt(pieces, k);
      TrimSpec(pieces[k]);
    }
    NonEmptyEntries(trimmed);
  }

  /**
   * Parsing keeps the input order: the entries of `a,b` are those of `a`
   * followed by those of `b`.
   */
  lemma ParseAround(a: string, b: string)
    ensures Parse(a + [','] + b) == Parse(a) + Parse(b)
  {
    SplitAround(a, ',', b);
    TrimAllAppend(Split(a, ','), Split(b, ','));
    NonEmptyAppend(TrimAll(Split(a, ',')), TrimAll(Split(b, ',')));
  }

  /** The blank after each ", " separator disappears when the pieces are trimmed. */
  lemma {:induction false} TrimAllAfterBlank(u: string)
    ensures TrimAll(Split([' '] + u, ',')) == TrimAll(Split(u, ','))
  {
    var rest := Split(u, ',');
    var pieces := Split([' '] + u, ',');
    assert ([' '] + u)[1..] == u;
    assert pieces == [[' '] + rest[0]] + rest[1..];
    assert pieces[1..] == rest[1..];
    TrimLeadingSpace(' ', rest[0]);
    calc {
      TrimAll(pieces);
      [Trim(pieces[0])] + TrimAll(pieces[1..]);
      [Trim(rest[0])] + TrimAll(rest[1..]);
      TrimAll(rest);
    }
  }

  /**
   * Round trip: parsing the ", "-join of clean entries gives the entries back,
   * so a profile saved unchanged keeps its skills and links.
   */
  lemma {:induction false} ParseFormat(list: seq<string>)
    requires forall k :: 0 <= k < |list| ==> IsEntry(list[k])
    ensures Parse(Format(list)) == list
  {
    if list == [] {
      assert Split([], ',') == [[]];
    } else if |list| == 1 {
      SplitNoSeparator(list[0], ',');
      TrimOfTrimmed(list[0]);
    } else {
      var x, rest := list[0], list[1..];
      assert Format(list) == x + [','] + ([' '] + Format(rest));
      ParseAround(x, [' '] + Format(rest));
      SplitNoSeparator(x, ',');
      TrimOfTrimmed(x);
      TrimAllAfterBlank(Format(rest));
      ParseFormat(rest);
    }
  }

  /** Parsing is a normal form: reparsing the formatted result changes nothing. */
  lemma ParseIdempotent(text: string)
    ensures Parse(Format(Parse(text))) == Parse(text)
  {
    ParseEntries(text);
    ParseFormat(Parse(text));
  }
}
