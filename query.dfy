/**
 * The part of URL parsing that the redirect listener relies on: taking the
 * query out of a request path, splitting it into name/value pairs
 * (`parse_qsl` with blank values dropped) and grouping the values per name
 * (`parse_qs`).
 */
module Query {
  import opened Wrappers
  import opened Text

  type Pairs = seq<(string, string)>

  /** The text before the first `c` (all of `s` when there is none). */
  function BeforeFirst(s: string, c: char): (r: string)
    ensures |r| <= |s| && r == s[..|r|] && c !in r
    ensures |r| < |s| ==> s[|r|] == c
  {
    if |s| == 0 || s[0] == c then "" else [s[0]] + BeforeFirst(s[1..], c)
  }

  /** The text after the first `c`, or the empty string when there is none. */
  function AfterFirst(s: string, c: char): (r: string)
    ensures c in s ==> r == s[|BeforeFirst(s, c)| + 1..]
    ensures c !in s ==> r == ""
  {
    var b := BeforeFirst(s, c);
    if |b| < |s| then s[|b| + 1..] else ""
  }

  lemma {:induction false} BeforeFirstOf(k: string, c: char, rest: string)
    requires c !in k
    ensures BeforeFirst(k + [c] + rest, c) == k
  {
    if |k| > 0 {
      assert (k + [c] + rest)[1..] == k[1..] + [c] + rest;
      BeforeFirstOf(k[1..], c, rest);
    }
  }

  /** The query component of a request path: after the first `?`, up to any `#` fragment. */
  function QueryOf(path: string): (q: string)
    ensures '#' !in q
    ensures '?' !in path ==> q == ""
  {
    AfterFirst(BeforeFirst(path, '#'), '?')
  }

  /** A path without a fragment is its own part before `#`. */
  lemma BeforeFirstAbsent(s: string, c: char)
    requires c !in s
    ensures BeforeFirst(s, c) == s
  {
  }

  /** The query of `path?query`, with or without a `#fragment` after it. */
  lemma QueryOfPath(path: string, query: string, fragment: string)
    requires '?' !in path && '#' !in path && '#' !in query
    ensures QueryOf(path + "?" + query) == query
    ensures QueryOf(path + "?" + query + "#" + fragment) == query
  {
    var full := path + "?" + query;
    assert full == path + ['?'] + query;
    BeforeFirstAbsent(full, '#');
    BeforeFirstOf(path, '?', query);
    assert full[|path| + 1..] == query;
    assert full + "#" + fragment == full + ['#'] + fragment;
    BeforeFirstOf(full, '#', fragment);
  }

  /** One `name=value` field; fields without `=` or with an empty value are dropped. */
  function ParseField(field: string): (r: Option<(string, string)>)
    ensures r.Some? ==> '=' !in r.value.0 && |r.value.1| > 0 && field == r.value.0 + "=" + r.value.1
  {
    if '=' in field then
      var name := BeforeFirst(field, '=');
      var value := field[|name| + 1..];
      if |value| > 0 then Some((name, value)) else None
    else None
  }

  function ParseFields(fields: seq<string>): (pairs: Pairs)
    ensures (forall j :: 0 <= j < |fields| ==> '&' !in fields[j]) ==> forall i :: 0 <= i < |pairs| ==> PlainPair(pairs[i])
  {
    if |fields| == 0 then []
    else
      match ParseField(fields[0])
      case Some(p) => [p] + ParseFields(fields[1..])
      case None => ParseFields(fields[1..])
  }

  /** `parse_qsl(query)`: the `&`-separated fields with a name and a non-empty value, in order. */
  function ParseQsl(query: string): (pairs: Pairs)
    ensures forall i :: 0 <= i < |pairs| ==> PlainPair(pairs[i])
  {
    SplitParts(query, '&');
    ParseFields(Split(query, '&'))
  }

  /** Writes pairs back as `name=value` fields. */
  function EncodeFields(pairs: Pairs): (fields: seq<string>)
    ensures |fields| == |pairs|
    ensures forall i :: 0 <= i < |pairs| ==> fields[i] == pairs[i].0 + "=" + pairs[i].1
  {
    if |pairs| == 0 then [] else [pairs[0].0 + "=" + pairs[0].1] + EncodeFields(pairs[1..])
  }

  /** Names and values that survive a trip through a query string unchanged. */
  predicate PlainPair(p: (string, string))
  {
    '=' !in p.0 && '&' !in p.0 && '&' !in p.1 && |p.1| > 0
  }

  lemma {:induction false} ParseFieldsEncode(pairs: Pairs)
    requires forall i :: 0 <= i < |pairs| ==> PlainPair(pairs[i])
    ensures ParseFields(EncodeFields(pairs)) == pairs
  {
    if |pairs| > 0 {
      var (name, value) := pairs[0];
      var field := name + "=" + value;
      BeforeFirstOf(name, '=', value);
      assert field == name + ['='] + value;
      assert field[|name| + 1..] == value;
      assert ParseField(field) == Some(pairs[0]);
      assert EncodeFields(pairs)[1..] == EncodeFields(pairs[1..]);
      ParseFieldsEncode(pairs[1..]);
    }
  }

  /** A plain pair written as `name=value` holds no `&`. */
  lemma EncodedFieldsPlain(pairs: Pairs)
    requires forall i :: 0 <= i < |pairs| ==> PlainPair(pairs[i])
    ensures forall i :: 0 <= i < |pairs| ==> '&' !in EncodeFields(pairs)[i]
  {
    var fields := EncodeFields(pairs);
    forall i | 0 <= i < |fields| ensures '&' !in fields[i] {
      assert PlainPair(pairs[i]);
      assert fields[i] == pairs[i].0 + ['='] + pairs[i].1;
    }
  }

  /** A query written as `name=value` fields joined by `&` parses back to exactly those pairs, in order. */
  lemma ParseQslEncode(pairs: Pairs)
    requires forall i :: 0 <= i < |pairs| ==> PlainPair(pairs[i])
    ensures ParseQsl(Join(EncodeFields(pairs), "&")) == pairs
  {
    if |pairs| == 0 {
      assert Split("", '&') == [""];
    } else {
      EncodedFieldsPlain(pairs);
      SplitJoin(EncodeFields(pairs), '&');
      ParseFieldsEncode(pairs);
    }
  }

  // ---------------------------------------------------------------------
  // grouping values per name

  /** The names that occur in `pairs`. */
  function Names(pairs: Pairs): set<string>
  {
    set i | 0 <= i < |pairs| :: pairs[i].0
  }

  /** The values given for `name`, in order of appearance. */
  function ValuesOf(pairs: Pairs, name: string): seq<string>
  {
    if |pairs| == 0 then []
    else ValuesOf(pairs[..|pairs| - 1], name) + (if pairs[|pairs| - 1].0 == name then [pairs[|pairs| - 1].1] else [])
  }

  /** The value of the first pair named `name`. */
  function FirstValue(pairs: Pairs, name: string): string
    requires name in Names(pairs)
  {
    if pairs[0].0 == name then pairs[0].1
    else
      assert name in Names(pairs[1..]) by {
        var i :| 0 <= i < |pairs| && pairs[i].0 == name;
        assert pairs[1..][i - 1] == pairs[i];
      }
      FirstValue(pairs[1..], name)
  }

  /**
   * `parse_qs` over already split pairs: every name that occurs, mapped to
   * the list of its values in order.
   */
  method ParseQs(pairs: Pairs) returns (grouped: map<string, seq<string>>)
    ensures grouped.Keys == Names(pairs)
    ensures forall name :: name in grouped ==> grouped[name] == ValuesOf(pairs, name)
  {
    grouped := map[];
    for i := 0 to |pairs|
      invariant grouped.Keys == Names(pairs[..i])
      invariant forall name :: name in grouped ==> grouped[name] == ValuesOf(pairs[..i], name)
    {
      var (name, value) := pairs[i];
      assert pairs[..i + 1][..i] == pairs[..i];
      assert Names(pairs[..i + 1]) == Names(pairs[..i]) + {name} by {
        assert pairs[..i + 1][i] == pairs[i];
        forall n | n in Names(pairs[..i]) ensures n in Names(pairs[..i + 1]) {
          var j :| 0 <= j < i && pairs[..i][j].0 == n;
          assert pairs[..i + 1][j] == pairs[..i][j];
        }
      }
      if name in grouped {
        grouped := grouped[name := grouped[name] + [value]];
      } else {
        ValuesOfAbsent(pairs[..i], name);
        grouped := grouped[name := [value]];
      }
    }
    assert pairs[..|pairs|] == pairs;
  }

  lemma {:induction false} ValuesOfAbsent(pairs: Pairs, name: string)
    requires name !in Names(pairs)
    ensures ValuesOf(pairs, name) == []
  {
    if |pairs| > 0 {
      var init := pairs[..|pairs| - 1];
      assert Names(init) <= Names(pairs) by {
        forall n | n in Names(init) ensures n in Names(pairs) {
          var j :| 0 <= j < |init| && init[j].0 == n;
          assert pairs[j] == init[j];
        }
      }
      ValuesOfAbsent(init, name);
      assert pairs[|pairs| - 1].0 != name;
    }
  }

  lemma {:induction false} FirstValueSnoc(pairs: Pairs, last: (string, string), name: string)
    requires name in Names(pairs)
    ensures name in Names(pairs + [last])
    ensures FirstValue(pairs + [last], name) == FirstValue(pairs, name)
  {
    var i :| 0 <= i < |pairs| && pairs[i].0 == name;
    assert (pairs + [last])[i] == pairs[i];
    if pairs[0].0 != name {
      assert name in Names(pairs[1..]) by { assert pairs[1..][i - 1] == pairs[i]; }
      assert (pairs + [last])[1..] == pairs[1..] + [last];
      FirstValueSnoc(pairs[1..], last, name);
    }
  }

  lemma {:induction false} FirstValueFresh(pairs: Pairs, last: (string, string))
    requires last.0 !in Names(pairs)
    ensures last.0 in Names(pairs + [last])
    ensures FirstValue(pairs + [last], last.0) == last.1
  {
    assert (pairs + [last])[|pairs|] == last;
    if |pairs| > 0 {
      assert pairs[0].0 != last.0;
      assert Names(pairs[1..]) <= Names(pairs) by {
        forall n | n in Names(pairs[1..]) ensures n in Names(pairs) {
          var j :| 0 <= j < |pairs[1..]| && pairs[1..][j].0 == n;
          assert pairs[j + 1] == pairs[1..][j];
        }
      }
      assert (pairs + [last])[1..] == pairs[1..] + [last];
      FirstValueFresh(pairs[1..], last);
    }
  }

  /** The first of a name's grouped values is the value of its first pair. */
  lemma {:induction false} ValuesOfFirst(pairs: Pairs, name: string)
    requires name in Names(pairs)
    ensures |ValuesOf(pairs, name)| > 0 && ValuesOf(pairs, name)[0] == FirstValue(pairs, name)
  {
    var init, last := pairs[..|pairs| - 1], pairs[|pairs| - 1];
    assert pairs == init + [last];
    if name in Names(init) {
      ValuesOfFirst(init, name);
      FirstValueSnoc(init, last, name);
    } else {
      assert last.0 == name by {
        var i :| 0 <= i < |pairs| && pairs[i].0 == name;
        assert forall j :: 0 <= j < |init| ==> pairs[j] == init[j] && init[j].0 in Names(init);
      }
      ValuesOfAbsent(init, name);
      FirstValueFresh(init, last);
    }
  }
}
