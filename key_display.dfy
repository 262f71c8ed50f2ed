/**
 * The two API-key helpers of the owner dashboard
 * (client/src/pages/DashboardPage.tsx): masking a key for display and
 * toggling an agent id in the list of revealed keys. Both are pure: the
 * mask is a single regular-expression replacement and the toggle builds a
 * new list.
 */
module KeyDisplay {

  import opened Results

  /** The text put between the two visible ends of a masked key: three U+00B7 middle dots. */
  const Dots: string := "\U{B7}\U{B7}\U{B7}"

  /** Characters that the regular-expression `.` does not match. */
  predicate IsLineTerminator(c: char) {
    c == '\n' || c == '\r' || c == '\U{2028}' || c == '\U{2029}'
  }

  /** No character of `s` is a line terminator (every API key the server issues is such a string). */
  predicate SingleLine(s: string) {
    forall k :: 0 <= k < |s| ==> !IsLineTerminator(s[k])
  }

  /**
   * The pattern `(.{8}).*(.{8})` can match starting at index `i`: the 16
   * characters from `i` on exist and none of them is a line terminator.
   */
  predicate Window(s: string, i: nat) {
    i + 16 <= |s| && forall k :: i <= k < i + 16 ==> !IsLineTerminator(s[k])
  }

  /** The leftmost index, not below `from`, where the pattern can match. */
  function LeftmostMatch(s: string, from: nat): (r: Option<nat>)
    ensures r.Some? ==> from <= r.value && Window(s, r.value)
    ensures r.Some? ==> forall j :: from <= j < r.value ==> !Window(s, j)
    ensures r.None? ==> forall j :: from <= j ==> !Window(s, j)
    decreases |s| - from
  {
    if from + 16 > |s| then None
    else if Window(s, from) then Some(from)
    else LeftmostMatch(s, from + 1)
  }

  /** The end of the run of non-terminator characters that starts at `i`. */
  function RunEnd(s: string, i: nat): (r: nat)
    requires i <= |s|
    ensures i <= r <= |s|
    ensures forall k :: i <= k < r ==> !IsLineTerminator(s[k])
    ensures r < |s| ==> IsLineTerminator(s[r])
    decreases |s| - i
  {
    if i == |s| || IsLineTerminator(s[i]) then i else RunEnd(s, i + 1)
  }

  /**
   * `key.replace(/(.{8}).*(.{8})/, '$1' + '···' + '$2')`: the first match
   * starts at the leftmost index where 16 non-terminator characters follow;
   * the greedy `.*` makes it end where that line ends; the match is
   * replaced by its first 8 characters, the dots and its last 8 characters.
   * Nothing else changes.
   */
  function Mask(key: string): (r: string)
    ensures |key| < 16 ==> r == key
    ensures (forall j :: !Window(key, j)) ==> r == key
    ensures SingleLine(key) && |key| >= 16 ==> r == key[..8] + Dots + key[|key| - 8..]
  {
    match LeftmostMatch(key, 0)
    case None => key
    case Some(i) =>
      var e := RunEnd(key, i);
      key[..i] + key[i..i + 8] + Dots + key[e - 8..e] + key[e..]
  }

  /** The key cell of an agent card: verbatim when revealed, masked otherwise. */
  function Display(key: string, revealed: seq<int>, agentId: int): (r: string)
    ensures agentId in revealed ==> r == key
    ensures agentId !in revealed ==> r == Mask(key)
    ensures |key| < 16 ==> r == key
  {
    if agentId in revealed then key else Mask(key)
  }

  /** Masking a single-line key twice shows the same text as masking it once. */
  lemma MaskIdempotent(key: string)
    requires SingleLine(key)
    ensures Mask(Mask(key)) == Mask(key)
  {
    if |key| >= 16 {
      var m := Mask(key);
      assert |m| == 19;
      assert SingleLine(m) by {
        forall k | 0 <= k < |m| ensures !IsLineTerminator(m[k]) {
          if k < 8 { assert m[k] == key[k]; }
          else if k < 11 { assert m[k] == Dots[k - 8]; }
          else { assert m[k] == key[|key| - 19 + k]; }
        }
      }
      assert m[..8] == key[..8];
      assert m[11..] == key[|key| - 8..];
    }
  }

  /** The lower-case hexadecimal digits that `Buffer.toString('hex')` produces. */
  predicate IsHexDigit(c: char) {
    '0' <= c <= '9' || 'a' <= c <= 'f'
  }

  /** The 64 hex digits of 32 random bytes. */
  predicate IsHex64(h: string) {
    |h| == 64 && forall k :: 0 <= k < |h| ==> IsHexDigit(h[k])
  }

  /** Prefix of every API key the server generates. */
  const KeyPrefix: string := "aico_sk_"

  /** A generated key, prefix plus 64 hex digits, is shown as the prefix, the dots and the last 8 hex digits. */
  lemma GeneratedKeyMask(h: string)
    requires IsHex64(h)
    ensures Mask(KeyPrefix + h) == KeyPrefix + Dots + h[56..]
  {
    var key := KeyPrefix + h;
    assert SingleLine(key) by {
      forall k | 0 <= k < |key| ensures !IsLineTerminator(key[k]) {
        if k >= 8 { assert key[k] == h[k - 8]; }
      }
    }
    assert key[..8] == KeyPrefix;
    assert key[|key| - 8..] == h[56..];
  }

  // ---------------------------------------------------------------------
  // toggleKeyReveal

  /** `ids.filter((x) => x !== id)`. */
  function RemoveAll(ids: seq<int>, id: int): (r: seq<int>)
    ensures |r| <= |ids|
    ensures forall x :: x in r <==> x in ids && x != id
  {
    if ids == [] then []
    else
      assert ids == [ids[0]] + ids[1..];
      (if ids[0] == id then [] else [ids[0]]) + RemoveAll(ids[1..], id)
  }

  /**
   * The id list after pressing the reveal button of `id`: the membership
   * of `id` flips and that of every other id stays.
   */
  function Toggle(revealed: seq<int>, id: int): (r: seq<int>)
    ensures id in r <==> id !in revealed
    ensures forall x :: x != id ==> (x in r <==> x in revealed)
  {
    if id in revealed then RemoveAll(revealed, id) else revealed + [id]
  }

  /** Filtering works piecewise, so the survivors keep their relative order. */
  lemma {:induction false} RemoveAllConcat(a: seq<int>, b: seq<int>, id: int)
    ensures RemoveAll(a + b, id) == RemoveAll(a, id) + RemoveAll(b, id)
  {
    if a == [] {
      assert a + b == b;
    } else {
      assert (a + b)[1..] == a[1..] + b;
      RemoveAllConcat(a[1..], b, id);
    }
  }

  /** Filtering out an id that does not occur changes nothing. */
  lemma {:induction false} RemoveAllAbsent(ids: seq<int>, id: int)
    requires id !in ids
    ensures RemoveAll(ids, id) == ids
  {
    if ids != [] {
      RemoveAllAbsent(ids[1..], id);
      assert ids == [ids[0]] + ids[1..];
    }
  }

  /** Toggling a present id removes every occurrence of it and keeps the others in order. */
  lemma TogglePresent(revealed: seq<int>, id: int, a: seq<int>, b: seq<int>)
    requires revealed == a + b && id in revealed
    ensures id !in Toggle(revealed, id)
    ensures Toggle(revealed, id) == RemoveAll(a, id) + RemoveAll(b, id)
  {
    RemoveAllConcat(a, b, id);
  }

  /** Toggling an absent id appends it at the end. */
  lemma ToggleAbsent(revealed: seq<int>, id: int)
    requires id !in revealed
    ensures Toggle(revealed, id) == revealed + [id]
    ensures Toggle(revealed, id)[|revealed|] == id
  {
  }

  /** Toggling the same id twice restores the membership of every id. */
  lemma ToggleTwice(revealed: seq<int>, id: int, x: int)
    ensures x in Toggle(Toggle(revealed, id), id) <==> x in revealed
  {
  }

  /** Toggling an absent id twice gives back exactly the original list. */
  lemma ToggleTwiceAbsent(revealed: seq<int>, id: int)
    requires id !in revealed
    ensures Toggle(Toggle(revealed, id), id) == revealed
  {
    RemoveAllConcat(revealed, [id], id);
    RemoveAllAbsent(revealed, id);
  }

  /** No id occurs twice. */
  predicate Distinct(ids: seq<int>) {
    forall i, j :: 0 <= i < j < |ids| ==> ids[i] != ids[j]
  }

  /** Filtering keeps a duplicate-free list duplicate-free. */
  lemma {:induction false} RemoveAllDistinct(ids: seq<int>, id: int)
    requires Distinct(ids)
    ensures Distinct(RemoveAll(ids, id))
  {
    if ids != [] {
      RemoveAllDistinct(ids[1..], id);
      assert ids[0] !in ids[1..] by {
        forall j | 0 <= j < |ids[1..]| ensures ids[1..][j] != ids[0] {
          assert ids[1..][j] == ids[j + 1];
        }
      }
    }
  }

  /** The list built only by toggles never holds an id twice. */
  lemma ToggleDistinct(revealed: seq<int>, id: int)
    requires Distinct(revealed)
    ensures Distinct(Toggle(revealed, id))
  {
    if id in revealed {
      RemoveAllDistinct(revealed, id);
    }
  }
}
