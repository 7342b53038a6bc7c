/**
 * A simplified stand-in for the platform's URL-components parser, reduced to
 * what the manager uses of it: the list of query items of a URL string.
 * The query is everything after the first '?'; it is cut at every '&', and
 * each piece is cut at its first '='. A piece without '=' is an item with a
 * name and no value. Percent-decoding, fragments and rejection of invalid
 * characters are not part of this parser.
 */
module QueryString {
  import opened Wrappers

  /** One query item: a name and an optional value. */
  datatype QueryItem = QueryItem(name: string, value: Option<string>)

  /** The position of the first occurrence of `c` in `s`. */
  function IndexOf(s: string, c: char): (r: Option<nat>)
    ensures r.None? <==> c !in s
    ensures r.Some? ==> r.value < |s| && s[r.value] == c && c !in s[..r.value]
  {
    if |s| == 0 then None
    else if s[0] == c then Some(0)
    else
      match IndexOf(s[1..], c)
      case None => None
      case Some(i) =>
        assert s[1..][..i] == s[1..i + 1];
        Some(i + 1)
  }

  /** Cuts `s` at its first `c`: the text before and the text after. */
  function SplitFirst(s: string, c: char): (r: Option<(string, string)>)
    ensures r.None? <==> c !in s
    ensures r.Some? ==> s == r.value.0 + [c] + r.value.1 && c !in r.value.0
  {
    match IndexOf(s, c)
    case None => None
    case Some(i) =>
      assert s == s[..i] + [c] + s[i + 1..];
      Some((s[..i], s[i + 1..]))
  }

  /** The first `c` after a `c`-free prefix is the one right after that prefix. */
  lemma SplitFirstAfter(a: string, c: char, b: string)
    requires c !in a
    ensures SplitFirst(a + [c] + b, c) == Some((a, b))
  {
    var s := a + [c] + b;
    assert s[|a|] == c;
    assert s[..|a|] == a && s[|a| + 1..] == b;
  }

  /** All the pieces of `s` between occurrences of `c`, in order; never empty. */
  function Split(s: string, c: char): (r: seq<string>)
    ensures |r| > 0
    ensures forall i :: 0 <= i < |r| ==> c !in r[i]
    decreases |s|
  {
    match SplitFirst(s, c)
    case None => [s]
    case Some((head, tail)) => [head] + Split(tail, c)
  }

  /** Glues pieces back together with `c` between neighbours. */
  function Join(pieces: seq<string>, c: char): string
  {
    if |pieces| == 0 then ""
    else if |pieces| == 1 then pieces[0]
    else pieces[0] + [c] + Join(pieces[1..], c)
  }

  /** Splitting loses nothing: the pieces glue back into the original text. */
  lemma {:induction false} JoinSplit(s: string, c: char)
    ensures Join(Split(s, c), c) == s
    decreases |s|
  {
    match SplitFirst(s, c)
    case None =>
    case Some((head, tail)) =>
      JoinSplit(tail, c);
      assert Split(s, c)[1..] == Split(tail, c);
  }

  /** Splitting text built from separator-free pieces gives exactly those pieces. */
  lemma {:induction false} SplitJoin(pieces: seq<string>, c: char)
    requires |pieces| > 0
    requires forall i :: 0 <= i < |pieces| ==> c !in pieces[i]
    ensures Split(Join(pieces, c), c) == pieces
  {
    if |pieces| == 1 {
      assert Join(pieces, c) == pieces[0];
    } else {
      var rest := pieces[1..];
      SplitJoin(rest, c);
      SplitFirstAfter(pieces[0], c, Join(rest, c));
      assert pieces == [pieces[0]] + rest;
    }
  }

  /** One '&'-separated piece read as a query item. */
  function ItemOf(piece: string): (r: QueryItem)
    ensures '=' !in piece ==> r == QueryItem(piece, None)
    ensures '=' in piece ==> r.value.Some? && piece == r.name + "=" + r.value.value && '=' !in r.name
  {
    match SplitFirst(piece, '=')
    case None => QueryItem(piece, None)
    case Some((name, value)) => QueryItem(name, Some(value))
  }

  /** The query items read from '&'-separated pieces, in order. */
  function ItemsOf(pieces: seq<string>): (r: seq<QueryItem>)
    ensures |r| == |pieces|
    ensures forall i :: 0 <= i < |r| ==> r[i] == ItemOf(pieces[i])
  {
    if pieces == [] then [] else [ItemOf(pieces[0])] + ItemsOf(pieces[1..])
  }

  /** The query items of a URL string; None when it has no query at all. */
  function QueryItems(url: string): (r: Option<seq<QueryItem>>)
    ensures r.None? <==> '?' !in url
  {
    match SplitFirst(url, '?')
    case None => None
    case Some((_, query)) => Some(ItemsOf(Split(query, '&')))
  }

  /** After a '?'-free prefix and a '?', the rest of the URL is the query. */
  lemma QueryItemsAfterPrefix(prefix: string, query: string)
    requires '?' !in prefix
    ensures QueryItems(prefix + ['?'] + query) == Some(ItemsOf(Split(query, '&')))
  {
    SplitFirstAfter(prefix, '?', query);
  }

  /** One step of the dictionary fill: a value sets the key, a missing value deletes it. */
  function Assign(parameters: map<string, string>, item: QueryItem): (r: map<string, string>)
    ensures item.value.Some? ==> r.Keys == parameters.Keys + {item.name} && r[item.name] == item.value.value
    ensures item.value.None? ==> r.Keys == parameters.Keys - {item.name}
    ensures forall k :: k in parameters && k != item.name ==> k in r && r[k] == parameters[k]
  {
    match item.value
    case Some(v) => parameters[item.name := v]
    case None => parameters - {item.name}
  }

  /**
   * The dictionary obtained by assigning every item in order, starting empty.
   * Every key in it comes from an item that carried a value for it.
   */
  function ParametersOf(items: seq<QueryItem>): (r: map<string, string>)
    ensures forall k :: k in r ==> exists i :: 0 <= i < |items| && items[i].name == k && items[i].value == Some(r[k])
  {
    if items == [] then map[]
    else
      var prefix := items[..|items| - 1];
      var r := Assign(ParametersOf(prefix), items[|items| - 1]);
      assert forall i :: 0 <= i < |prefix| ==> prefix[i] == items[i];
      r
  }

  /** Adding one item to the end applies one more assignment. */
  lemma ParametersOfSnoc(items: seq<QueryItem>, item: QueryItem)
    ensures ParametersOf(items + [item]) == Assign(ParametersOf(items), item)
  {
  }

  /**
   * The parameters a URL string yields: empty when it has no query. A key
   * never holds '=' and neither a key nor a value holds '&', since both are
   * cut from one '&'-free piece at its first '='.
   */
  function ParsedParameters(url: string): (r: map<string, string>)
    ensures '?' !in url ==> r == map[]
    ensures forall k :: k in r ==> '=' !in k && '&' !in k && '&' !in r[k]
  {
    match QueryItems(url)
    case None => map[]
    case Some(items) =>
      var r := ParametersOf(items);
      assert forall k :: k in r ==> '=' !in k && '&' !in k && '&' !in r[k] by {
        forall k | k in r
          ensures '=' !in k && '&' !in k && '&' !in r[k]
        {
          var i :| 0 <= i < |items| && items[i].name == k && items[i].value == Some(r[k]);
          var pieces := Split(SplitFirst(url, '?').value.1, '&');
          assert items[i] == ItemOf(pieces[i]);
          assert '&' !in pieces[i];
        }
      }
      r
  }

  /** The position of the last item named `key`. */
  function LastIndex(items: seq<QueryItem>, key: string): (r: Option<nat>)
    ensures r.Some? ==> r.value < |items| && items[r.value].name == key
    ensures r.Some? ==> forall j :: r.value < j < |items| ==> items[j].name != key
    ensures r.None? ==> forall j :: 0 <= j < |items| ==> items[j].name != key
  {
    if items == [] then None
    else if items[|items| - 1].name == key then Some(|items| - 1)
    else LastIndex(items[..|items| - 1], key)
  }

  /** What a dictionary holds for a key. */
  function Lookup(m: map<string, string>, key: string): Option<string>
  {
    if key in m then Some(m[key]) else None
  }

  /**
   * The last item with a given name decides that key: its value if it has one,
   * and no entry if it has none or if no item has that name.
   */
  lemma {:induction false} LastWriteWins(items: seq<QueryItem>, key: string)
    ensures Lookup(ParametersOf(items), key) ==
      match LastIndex(items, key)
      case None => None
      case Some(i) => items[i].value
  {
    if items != [] {
      var prefix := items[..|items| - 1];
      LastWriteWins(prefix, key);
    }
  }
}
