/**
 * The notification text shown when a wallet connects
 * (hooks/useWallet.tsx, lines 101-108): the public key is shown only by its
 * first five and last five characters.
 */
module Redaction {
  import opened Wrappers

  const HEADER: string := "Connected to wallet "
  const ELLIPSIS: string := "..."
  /** Characters shown from each end of the key. */
  const SHOWN: nat := 5

  function Min(a: int, b: int): int { if a <= b then a else b }
  function Max(a: int, b: int): int { if a >= b then a else b }

  /**
   * JavaScript's `String.prototype.substr(start, length)` (Annex B of the
   * ECMAScript specification): a negative start counts from the end and is
   * clamped at 0, an absent length runs to the end, and the result is clamped
   * to the string. Positions count characters of `string`, where
   * JavaScript counts UTF-16 code units; the two agree on ASCII text.
   */
  function Substr(s: string, start: int, length: Option<int>): (r: string)
    ensures |r| <= |s|
  {
    var size := |s|;
    var b := if start < 0 then Max(size + start, 0) else Min(start, size);
    var n := match length
      case None => size - b
      case Some(l) => Min(Max(l, 0), size - b);
    s[b..b + n]
  }

  /** The first min(5, |key|) characters. */
  function Head(key: string): string { key[..Min(SHOWN, |key|)] }

  /** The last min(5, |key|) characters. */
  function Tail(key: string): string { key[|key| - Min(SHOWN, |key|)..] }

  lemma SubstrHead(key: string)
    ensures Substr(key, 0, Some(5)) == Head(key)
  {
  }

  lemma SubstrTail(key: string)
    ensures Substr(key, -5, None) == Tail(key)
  {
  }

  /** `'Connected to wallet ' + key.substr(0, 5) + '...' + key.substr(-5)`. */
  function ConnectedDescription(key: string): (d: string)
    ensures d == HEADER + Head(key) + ELLIPSIS + Tail(key)
    ensures |d| == |HEADER| + |ELLIPSIS| + 2 * Min(SHOWN, |key|)
  {
    SubstrHead(key);
    SubstrTail(key);
    HEADER + Substr(key, 0, Some(5)) + ELLIPSIS + Substr(key, -5, None)
  }

  /** Splits a description back into the two key fragments it shows. */
  function ParseDescription(d: string): (r: Option<(string, string)>)
    ensures r.Some? ==> |r.value.0| == |r.value.1|
    ensures r.Some? ==> d == HEADER + r.value.0 + ELLIPSIS + r.value.1
  {
    var h := |HEADER|;
    if |d| < h + |ELLIPSIS| || d[..h] != HEADER then None
    else
      var rest := d[h..];
      if (|rest| - |ELLIPSIS|) % 2 != 0 then None
      else
        var n := (|rest| - |ELLIPSIS|) / 2;
        if rest[n..n + |ELLIPSIS|] != ELLIPSIS then None
        else
          assert d == d[..h] + rest;
          assert rest == rest[..n] + rest[n..n + |ELLIPSIS|] + rest[n + |ELLIPSIS|..];
          Some((rest[..n], rest[n + |ELLIPSIS|..]))
  }

  /** The description names the key's two ends and nothing else: parsing it recovers exactly them. */
  lemma {:induction false} ParseConnectedDescription(key: string)
    ensures ParseDescription(ConnectedDescription(key)) == Some((Head(key), Tail(key)))
  {
    var d := ConnectedDescription(key);
    var m := Min(SHOWN, |key|);
    var rest := Head(key) + ELLIPSIS + Tail(key);
    assert d == HEADER + rest;
    assert d[..|HEADER|] == HEADER;
    assert d[|HEADER|..] == rest;
    assert |rest| == 2 * m + |ELLIPSIS|;
    assert rest[..m] == Head(key);
    assert rest[m..m + |ELLIPSIS|] == ELLIPSIS;
    assert rest[m + |ELLIPSIS|..] == Tail(key);
  }

  /** At most ten characters of the key are shown, and only the key's ends influence the text. */
  lemma {:induction false} DescriptionDependsOnlyOnEnds(k1: string, k2: string)
    requires |k1| >= SHOWN && |k2| >= SHOWN
    requires k1[..SHOWN] == k2[..SHOWN] && k1[|k1| - SHOWN..] == k2[|k2| - SHOWN..]
    ensures ConnectedDescription(k1) == ConnectedDescription(k2)
    ensures |Head(k1)| + |Tail(k1)| == 2 * SHOWN
  {
    assert Head(k1) == Head(k2);
    assert Tail(k1) == Tail(k2);
  }

  /** A key of fifteen characters: the middle five are left out. */
  lemma ExampleDescription()
    ensures ConnectedDescription("Ab1Cd2Ef3Gh4Ij5") == "Connected to wallet Ab1Cd...h4Ij5"
  {
  }

  /** A key shorter than five characters is shown twice, once as each end. */
  lemma ShortKeyDescription()
    ensures ConnectedDescription("abc") == "Connected to wallet abc...abc"
  {
  }
}
