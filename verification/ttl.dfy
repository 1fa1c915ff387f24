/**
 * Time-to-live support of src/djangostdnet/ttl.py: the `TTLField` envelope
 * `"<now>:<ttl>"` and the purge that drops expired instances from query
 * results.  The clock is a parameter `now`, in whole seconds.
 */
module Ttl {
  import opened Wrappers
  import opened Values

  // ---------------------------------------------------------------------------
  // Decimal integers: `str(int(x))` and `int(s)`
  // ---------------------------------------------------------------------------

  predicate IsDigit(c: char)
  {
    '0' <= c <= '9'
  }

  function DigitChar(d: nat): (c: char)
    requires d < 10
    ensures IsDigit(c) && c as int - '0' as int == d
  {
    (d + '0' as int) as char
  }

  /** The decimal digits of `n`, without leading zeros. */
  function NatToString(n: nat): (s: string)
    ensures |s| > 0 && forall i :: 0 <= i < |s| ==> IsDigit(s[i])
  {
    if n < 10 then [DigitChar(n)] else NatToString(n / 10) + [DigitChar(n % 10)]
  }

  /** `str(i)`: a `-` sign for a negative number, then its digits. */
  function IntToString(i: int): (s: string)
    ensures ':' !in s
  {
    if i < 0 then "-" + NatToString(-i) else NatToString(i)
  }

  /** The value of a non-empty digit string. */
  function DigitsValue(s: string): (r: Option<nat>)
    ensures r.Some? <==> |s| > 0 && forall i :: 0 <= i < |s| ==> IsDigit(s[i])
    decreases |s|
  {
    if |s| == 0 then None
    else if !IsDigit(s[|s| - 1]) then None
    else if |s| == 1 then Some(s[0] as int - '0' as int)
    else
      match DigitsValue(s[..|s| - 1])
      case None => None
      case Some(v) => Some(10 * v + (s[|s| - 1] as int - '0' as int))
  }

  /** `int(s)` on a string: an optional sign, then digits; anything else is a ValueError (`None`). */
  function ParseInt(s: string): (r: Option<int>)
    ensures |s| == 0 ==> r.None?
    ensures |s| > 0 && IsDigit(s[0]) ==> r == DigitsValue(s)
    ensures |s| > 0 && s[0] == '+' ==> r == DigitsValue(s[1..])
    ensures |s| > 0 && s[0] == '-' ==>
              && (r.Some? <==> DigitsValue(s[1..]).Some?)
              && (r.Some? ==> r.value == -(DigitsValue(s[1..]).value as int))
    ensures |s| > 0 && !IsDigit(s[0]) && s[0] != '+' && s[0] != '-' ==> r.None?
  {
    if |s| > 0 && s[0] == '-' then
      match DigitsValue(s[1..])
      case None => None
      case Some(v) => var n: int := v; Some(-n)
    else if |s| > 0 && s[0] == '+' then DigitsValue(s[1..])
    else DigitsValue(s)
  }

  lemma {:induction false} DigitsValueOfNatToString(n: nat)
    ensures DigitsValue(NatToString(n)) == Some(n)
  {
    if n >= 10 {
      var s := NatToString(n);
      DigitsValueOfNatToString(n / 10);
      assert s[..|s| - 1] == NatToString(n / 10);
    }
  }

  /** `int(str(i)) == i`. */
  lemma ParseIntOfIntToString(i: int)
    ensures ParseInt(IntToString(i)) == Some(i)
  {
    if i < 0 {
      DigitsValueOfNatToString(-i);
      assert IntToString(i)[1..] == NatToString(-i);
    } else {
      DigitsValueOfNatToString(i);
    }
  }

  // ---------------------------------------------------------------------------
  // `value.split(':')`
  // ---------------------------------------------------------------------------

  /** Python's `s.split(c)`: the pieces between occurrences of `c`, at least one. */
  function Split(s: string, c: char): (r: seq<string>)
    ensures |r| >= 1
    decreases |s|
  {
    if |s| == 0 then [""]
    else
      var rest := Split(s[1..], c);
      if s[0] == c then [""] + rest else [[s[0]] + rest[0]] + rest[1..]
  }

  /** A string without the separator is one piece. */
  lemma {:induction false} SplitWithoutSeparator(s: string, c: char)
    requires c !in s
    ensures Split(s, c) == [s]
    decreases |s|
  {
    if |s| > 0 {
      SplitWithoutSeparator(s[1..], c);
      assert [s[0]] + s[1..] == s;
    }
  }

  /** Splitting at the first separator. */
  lemma {:induction false} SplitAtFirst(a: string, b: string, c: char)
    requires c !in a
    ensures Split(a + [c] + b, c) == [a] + Split(b, c)
    decreases |a|
  {
    if |a| > 0 {
      assert (a + [c] + b)[1..] == a[1..] + [c] + b;
      SplitAtFirst(a[1..], b, c);
      assert [a[0]] + a[1..] == a;
    } else {
      assert (a + [c] + b)[1..] == b;
    }
  }

  // ---------------------------------------------------------------------------
  // The TTL envelope
  // ---------------------------------------------------------------------------

  datatype TtlError = ValueError

  /**
   * `TTLField.set_get_value` (ttl.py:72-75): `None` stays `None` (the method
   * returns nothing); any other value is stored as `"<now>:<int(value)>"`.
   * `int` of a boolean is 0 or 1 and of a string is its parse.
   */
  function Encode(v: Value, now: int): (r: Result<Value, TtlError>)
    ensures v == Null ==> r == Ok(Null)
    ensures v.Int? ==> r == Ok(Str(IntToString(now) + ":" + IntToString(v.i)))
    ensures v.Bool? ==> r == Ok(Str(IntToString(now) + ":" + IntToString(if v.b then 1 else 0)))
    ensures v.Str? && ParseInt(v.s).Some? ==> r == Ok(Str(IntToString(now) + ":" + IntToString(ParseInt(v.s).value)))
    ensures r.Err? <==> v.Str? && ParseInt(v.s).None?
  {
    var n :- match v
      case Null => Ok(None)
      case Int(i) => Ok(Some(i))
      case Bool(b) => Ok(Some(if b then 1 else 0))
      case Str(s) => if ParseInt(s).Some? then Ok(Some(ParseInt(s).value)) else Err(ValueError);
    if n.None? then Ok(Null) else Ok(Str(IntToString(now) + ":" + IntToString(n.value)))
  }

  /**
   * `TTLField.to_python` (ttl.py:77-83): an int (a bool is one) is already
   * the remaining TTL; a string `"t:delta"` gives `t + delta - now`, and a
   * string with another number of `:`-pieces or a piece that is not an
   * integer is a ValueError; anything else decodes to `None`.
   */
  function Decode(v: Value, now: int): (r: Result<Value, TtlError>)
    ensures v.Int? || v.Bool? ==> r == Ok(v)
    ensures v == Null ==> r == Ok(Null)
    ensures v.Str? && |Split(v.s, ':')| != 2 ==> r == Err(ValueError)
    ensures v.Str? ==>
              var parts := Split(v.s, ':');
              (r.Ok? <==> |parts| == 2 && ParseInt(parts[0]).Some? && ParseInt(parts[1]).Some?)
    ensures v.Str? && r.Ok? ==>
              var parts := Split(v.s, ':');
              r == Ok(Int(ParseInt(parts[0]).value + ParseInt(parts[1]).value - now))
  {
    match v
    case Int(_) => Ok(v)
    case Bool(_) => Ok(v)
    case Null => Ok(Null)
    case Str(s) =>
      var parts := Split(s, ':');
      if |parts| != 2 then Err(ValueError)
      else
        match (ParseInt(parts[0]), ParseInt(parts[1]))
        case (Some(t), Some(delta)) => Ok(Int(t + delta - now))
        case _ => Err(ValueError)
  }

  /** Decoding `k` seconds after encoding gives the TTL less `k`; at `k == 0` the round trip is exact. */
  lemma DecodeLater(v: int, now: int, k: int)
    ensures Decode(Encode(Int(v), now).value, now + k) == Ok(Int(v - k))
  {
    var a := IntToString(now);
    var b := IntToString(v);
    assert a + ":" + b == a + [':'] + b;
    SplitAtFirst(a, b, ':');
    SplitWithoutSeparator(b, ':');
    ParseIntOfIntToString(now);
    ParseIntOfIntToString(v);
  }

  lemma EncodeDecodeRoundTrip(v: int, now: int)
    ensures Decode(Encode(Int(v), now).value, now) == Ok(Int(v))
  {
    DecodeLater(v, now, 0);
  }

  /** An instance stored with TTL 10 at time 0 (tests/ttl.py:31-37) has expired when read at time 11. */
  lemma StaleEnvelopeExpires()
    ensures Decode(Encode(Int(10), 0).value, 11) == Ok(Int(-1))
  {
    DecodeLater(10, 0, 11);
  }

  // ---------------------------------------------------------------------------
  // Purging expired instances from query results
  // ---------------------------------------------------------------------------

  /** A query result: its identity, how many TTLFields its model has, and its decoded TTL. */
  datatype Item = Item(id: int, ttlFields: nat, ttl: Option<int>)

  predicate Expired(item: Item)
  {
    item.ttl.Some? && item.ttl.value < 0
  }

  /** The IOError raised for a model without exactly one TTLField. */
  datatype PurgeError = UnsupportedTtlFields(count: nat)

  /** The items returned, the items deleted, and the error that stopped the loop. */
  datatype Purged = Purged(kept: seq<Item>, deleted: seq<Item>, error: Option<PurgeError>)

  /** The loop of `_purge_expired` (ttl.py:26-39), over `items` in order. */
  function Purge(items: seq<Item>): Purged
    decreases |items|
  {
    if items == [] then Purged([], [], None)
    else
      var prev := Purge(items[..|items| - 1]);
      var item := items[|items| - 1];
      if prev.error.Some? then prev
      else if item.ttlFields != 1 then Purged(prev.kept, prev.deleted, Some(UnsupportedTtlFields(item.ttlFields)))
      else if Expired(item) then Purged(prev.kept, prev.deleted + [item], None)
      else Purged(prev.kept + [item], prev.deleted, None)
  }

  /** A reference definition of the live items: those not expired, front to back. */
  function Live(items: seq<Item>): seq<Item>
    decreases |items|
  {
    if items == [] then [] else (if Expired(items[0]) then [] else [items[0]]) + Live(items[1..])
  }

  /** The expired items, front to back. */
  function Dead(items: seq<Item>): seq<Item>
    decreases |items|
  {
    if items == [] then [] else (if Expired(items[0]) then [items[0]] else []) + Dead(items[1..])
  }

  /** Every model involved has exactly one TTLField. */
  predicate OneTtlField(items: seq<Item>)
  {
    forall i :: 0 <= i < |items| ==> items[i].ttlFields == 1
  }

  lemma {:induction false} LiveDeadSnoc(items: seq<Item>, x: Item)
    ensures Live(items + [x]) == Live(items) + (if Expired(x) then [] else [x])
    ensures Dead(items + [x]) == Dead(items) + (if Expired(x) then [x] else [])
    decreases |items|
  {
    if items == [] {
      assert [x][1..] == [];
    } else {
      assert (items + [x])[1..] == items[1..] + [x];
      LiveDeadSnoc(items[1..], x);
    }
  }

  /** Without a bad model, the purge keeps exactly the live items and deletes exactly the expired ones, in order. */
  lemma {:induction false} PurgeIsFilter(items: seq<Item>)
    ensures Purge(items).error.None? <==> OneTtlField(items)
    ensures OneTtlField(items) ==> Purge(items).kept == Live(items) && Purge(items).deleted == Dead(items)
    decreases |items|
  {
    if items != [] {
      var front := items[..|items| - 1];
      var last := items[|items| - 1];
      PurgeIsFilter(front);
      assert items == front + [last];
      LiveDeadSnoc(front, last);
      assert OneTtlField(items) <==> OneTtlField(front) && last.ttlFields == 1 by {
        if OneTtlField(front) && last.ttlFields == 1 {
          forall i | 0 <= i < |items|
            ensures items[i].ttlFields == 1
          {
            if i < |front| {
              assert items[i] == front[i];
            }
          }
        }
      }
    }
  }

  lemma {:induction false} LiveMembers(items: seq<Item>)
    ensures forall x :: x in Live(items) <==> x in items && !Expired(x)
    ensures forall x :: x in Dead(items) <==> x in items && Expired(x)
    ensures |Live(items)| + |Dead(items)| == |items|
    decreases |items|
  {
    if items != [] {
      LiveMembers(items[1..]);
      assert items == [items[0]] + items[1..];
    }
  }

  /** Live items of a live list are the list itself. */
  lemma {:induction false} LiveOfLive(items: seq<Item>)
    ensures Live(Live(items)) == Live(items)
    ensures Dead(Live(items)) == []
    decreases |items|
  {
    if items != [] {
      LiveOfLive(items[1..]);
      if !Expired(items[0]) {
        var l := Live(items);
        assert l == [items[0]] + Live(items[1..]);
        assert l[0] == items[0] && l[1..] == Live(items[1..]);
      } else {
        assert Live(items) == Live(items[1..]);
      }
    }
  }

  /** Purging an already purged list returns it unchanged and deletes nothing. */
  lemma PurgeIdempotent(items: seq<Item>)
    requires Purge(items).error.None?
    ensures Purge(Purge(items).kept) == Purged(Purge(items).kept, [], None)
  {
    PurgeIsFilter(items);
    var kept := Purge(items).kept;
    LiveMembers(items);
    assert OneTtlField(kept) by {
      forall i | 0 <= i < |kept|
        ensures kept[i].ttlFields == 1
      {
        assert kept[i] in items;
        var j :| 0 <= j < |items| && items[j] == kept[i];
      }
    }
    PurgeIsFilter(kept);
    LiveOfLive(items);
  }

  /**
   * Five records with TTL 100, the second and fourth written at time 0 and so
   * expired when read at time 1000 (tests/ttl.py:38-96): each slice returns
   * the live records of the raw slice only.
   */
  lemma SlicesDropExpired()
    ensures var all := [Item(1, 1, Some(100)), Item(2, 1, Some(-900)), Item(3, 1, Some(100)),
                        Item(4, 1, Some(-900)), Item(5, 1, Some(100))];
            && Purge(all[1..]).kept == [all[2], all[4]]
            && Purge(all[..1]).kept == [all[0]]
            && Purge(all[1..3]).kept == [all[2]]
  {
    var all := [Item(1, 1, Some(100)), Item(2, 1, Some(-900)), Item(3, 1, Some(100)),
                Item(4, 1, Some(-900)), Item(5, 1, Some(100))];
    PurgeIsFilter(all[1..]);
    PurgeIsFilter(all[..1]);
    PurgeIsFilter(all[1..3]);
    assert all[1..][1..] == all[2..];
    assert all[2..][1..] == all[3..];
    assert all[3..][1..] == all[4..];
    assert all[4..][1..] == [];
    assert Live(all[4..]) == [all[4]];
    assert Live(all[3..]) == [all[4]];
    assert Live(all[2..]) == [all[2], all[4]];
    assert all[1..3][1..] == [all[2]];
    assert [all[2]][1..] == [];
  }

  /** What `items` returns: the purged list, or what the callback made of it. */
  datatype Answer<A> = Listed(items: seq<Item>) | Called(result: A)

  /** `TTLBackendQueryWrapper` (ttl.py:14-47), reduced to the items its purges delete. */
  class TtlQuery {
    /** The items whose `delete()` has run, in order. */
    var deleted: seq<Item>

    constructor ()
      ensures deleted == []
    {
      deleted := [];
    }

    /** `_purge_expired` (ttl.py:26-39): keep the live items, delete the expired ones, fail on a bad model. */
    method PurgeExpired(items: seq<Item>) returns (r: Result<seq<Item>, PurgeError>)
      modifies this
      ensures var p := Purge(items);
              && deleted == old(deleted) + p.deleted
              && (r.Err? <==> p.error.Some?)
              && (r.Ok? ==> r.value == p.kept)
              && (r.Err? ==> r.error == p.error.value)
    {
      var result: seq<Item> := [];
      var i := 0;
      while i < |items|
        invariant 0 <= i <= |items|
        invariant |old(deleted)| <= |deleted| && deleted[..|old(deleted)|] == old(deleted)
        invariant Purge(items[..i]) == Purged(result, deleted[|old(deleted)|..], None)
      {
        assert items[..i + 1][..i] == items[..i];
        var item := items[i];
        if item.ttlFields != 1 {
          assert Purge(items[..i + 1]).error == Some(UnsupportedTtlFields(item.ttlFields));
          PurgeErrorPersists(items, i + 1);
          assert deleted == old(deleted) + deleted[|old(deleted)|..];
          return Err(UnsupportedTtlFields(item.ttlFields));
        }
        if item.ttl.Some? && item.ttl.value < 0 {
          deleted := deleted + [item];
        } else {
          result := result + [item];
        }
        i := i + 1;
      }
      assert items[..i] == items;
      assert deleted == old(deleted) + deleted[|old(deleted)|..];
      r := Ok(result);
    }

    /**
     * `items` (ttl.py:41-47) over the underlying query's result `raw` for the
     * requested slice: without a callback the purge of `raw` is returned;
     * with one, the callback is given the purge of `raw` (`_wrap_purge_expired`,
     * ttl.py:21-24).
     */
    method Items<A>(raw: seq<Item>, callback: Option<seq<Item> -> A>) returns (r: Result<Answer<A>, PurgeError>)
      modifies this
      ensures var p := Purge(raw);
              && deleted == old(deleted) + p.deleted
              && (r.Err? <==> p.error.Some?)
              && (r.Ok? && callback.None? ==> r.value == Listed(p.kept))
              && (r.Ok? && callback.Some? ==> r.value == Called(callback.value(p.kept)))
    {
      var purged := PurgeExpired(raw);
      if purged.Err? {
        return Err(purged.error);
      }
      if callback.Some? {
        r := Ok(Called(callback.value(purged.value)));
      } else {
        r := Ok(Listed(purged.value));
      }
    }
  }

  /** Once the loop has failed, the later items are not looked at. */
  lemma {:induction false} PurgeErrorPersists(items: seq<Item>, n: nat)
    requires n <= |items|
    requires Purge(items[..n]).error.Some?
    ensures Purge(items) == Purge(items[..n])
    decreases |items| - n
  {
    if n < |items| {
      assert items[..n + 1][..n] == items[..n];
      assert Purge(items[..n + 1]) == Purge(items[..n]);
      PurgeErrorPersists(items, n + 1);
    } else {
      assert items[..n] == items;
    }
  }
}
