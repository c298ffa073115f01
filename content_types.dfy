/**
 * Scope (content type) translation of the common editor plugin.
 *
 * A qualified content type is a sequence of scope parts.  The translation
 * table maps qualified content types to qualified content types; `Translate`
 * looks up the longest prefix of its input that has a translation and then
 * re-appends, one part at a time and in their original order, the
 * translations of the parts it stripped off.
 */
module ContentTypes {

  import opened Wrappers

  /** A qualified content type: its parts, outermost first. */
  type ContentType = seq<string>

  type Table = map<ContentType, ContentType>

  /**
   * The largest `k <= n` such that the first `k` parts of `t` are a key of
   * `table`, or None when no such prefix (not even the empty one) is a key.
   */
  function KeyPrefixAtMost(table: Table, t: ContentType, n: nat): (r: Option<nat>)
    requires n <= |t|
    ensures r.Some? ==> r.value <= n && t[..r.value] in table
    ensures r.Some? ==> forall m :: r.value < m <= n ==> t[..m] !in table
    ensures r.None? ==> forall m :: 0 <= m <= n ==> t[..m] !in table
    decreases n
  {
    if t[..n] in table then Some(n)
    else if n == 0 then None
    else KeyPrefixAtMost(table, t, n - 1)
  }

  /** The length of the longest prefix of `t` that is a key of `table`. */
  function LongestKeyPrefix(table: Table, t: ContentType): Option<nat>
  {
    KeyPrefixAtMost(table, t, |t|)
  }

  /** What one stripped part contributes: its one-part translation, or nothing. */
  function PartTranslation(table: Table, part: string): ContentType
  {
    if [part] in table then table[[part]] else []
  }

  /** The contributions of the stripped parts, in their original order. */
  function PartTranslations(table: Table, parts: seq<string>): ContentType
    decreases |parts|
  {
    if parts == [] then []
    else PartTranslations(table, parts[..|parts| - 1]) + PartTranslation(table, parts[|parts| - 1])
  }

  /**
   * The translation of `t`: unchanged when no prefix of it is a key, otherwise
   * the translation of its longest key prefix followed by the translations of
   * the remaining parts.
   */
  function Translation(table: Table, t: ContentType): ContentType
  {
    match LongestKeyPrefix(table, t)
    case None => t
    case Some(k) => table[t[..k]] + PartTranslations(table, t[k..])
  }

  /** A prefix that is a key and has no longer key prefix above it is the longest one. */
  lemma LongestKeyPrefixIs(table: Table, t: ContentType, k: nat)
    requires k <= |t| && t[..k] in table
    requires forall m :: k < m <= |t| ==> t[..m] !in table
    ensures LongestKeyPrefix(table, t) == Some(k)
  {
  }

  /** With no key prefix at all, down to the empty content type, the input comes back unchanged. */
  lemma {:induction false} TranslationWithoutKey(table: Table, t: ContentType)
    requires forall m :: 0 <= m <= |t| ==> t[..m] !in table
    ensures Translation(table, t) == t
  {
  }

  /** A content type that is itself a key translates to exactly its mapped value. */
  lemma {:induction false} TranslationOfKey(table: Table, t: ContentType)
    requires t in table
    ensures Translation(table, t) == table[t]
  {
    assert t[..|t|] == t;
    LongestKeyPrefixIs(table, t, |t|);
    assert t[|t|..] == [];
  }

  /** Stripped parts without a one-part translation contribute nothing. */
  lemma {:induction false} UntranslatedPartsDropped(table: Table, parts: seq<string>)
    requires forall i :: 0 <= i < |parts| ==> [parts[i]] !in table
    ensures PartTranslations(table, parts) == []
    decreases |parts|
  {
    if parts != [] {
      var init := parts[..|parts| - 1];
      assert forall i :: 0 <= i < |init| ==> init[i] == parts[i];
      UntranslatedPartsDropped(table, init);
    }
  }

  /** Each stripped part with a one-part translation contributes exactly that translation, in order. */
  lemma {:induction false} PartTranslationsAppend(table: Table, parts: seq<string>, more: seq<string>)
    ensures PartTranslations(table, parts + more)
         == PartTranslations(table, parts) + PartTranslations(table, more)
    decreases |more|
  {
    if more == [] {
      assert parts + more == parts;
    } else {
      var init := more[..|more| - 1];
      assert (parts + more)[..|parts + more| - 1] == parts + init;
      assert (parts + more)[|parts + more| - 1] == more[|more| - 1];
      PartTranslationsAppend(table, parts, init);
    }
  }

  /**
   * The table behind `translate`; `AddTranslation` updates it in place.
   */
  class ContentTypeTranslation {

    var table: Table

    constructor ()
      ensures table == map[]
    {
      table := map[];
    }

    /** Makes `left` translate to `right`, replacing any earlier translation of `left`. */
    method AddTranslation(left: ContentType, right: ContentType)
      modifies this
      ensures table == old(table)[left := right]
      ensures left in table && table[left] == right
      ensures forall t :: t != left ==> (t in table <==> t in old(table))
      ensures forall t :: t != left && t in table ==> table[t] == old(table)[t]
    {
      table := table[left := right];
    }

    /**
     * Strips parts off the end of `contentType` until what is left is a key,
     * then appends the one-part translations of the stripped parts.
     */
    method Translate(contentType: ContentType) returns (r: ContentType)
      ensures r == Translation(table, contentType)
    {
      var i := contentType;
      var parts: seq<string> := [];
      while i !in table && |i| > 0
        invariant |i| <= |contentType| && i == contentType[..|i|]
        invariant parts == contentType[|i|..]
        invariant forall m :: |i| < m <= |contentType| ==> contentType[..m] !in table
        decreases |i|
      {
        parts := [i[|i| - 1]] + parts;
        i := i[..|i| - 1];
      }
      if i in table {
        LongestKeyPrefixIs(table, contentType, |i|);
        r := table[i];
        for k := 0 to |parts|
          invariant r == table[i] + PartTranslations(table, parts[..k])
        {
          assert parts[..k + 1][..k] == parts[..k];
          r := r + PartTranslation(table, parts[k]);
        }
        assert parts[..|parts|] == parts;
      } else {
        TranslationWithoutKey(table, contentType);
        r := contentType;
      }
    }
  }

  /** After `AddTranslation(left, right)`, `left` translates to exactly `right`. */
  lemma TranslationAfterAdd(table: Table, left: ContentType, right: ContentType)
    ensures Translation(table[left := right], left) == right
  {
    TranslationOfKey(table[left := right], left);
  }

  /**
   * A key followed by one part that has its own one-part translation (and no
   * longer key) translates to the key's value followed by the part's value.
   */
  lemma TranslationOfKeyAndPart(table: Table, prefix: ContentType, part: string)
    requires prefix in table && prefix + [part] !in table && [part] in table
    ensures Translation(table, prefix + [part]) == table[prefix] + table[[part]]
  {
    var t := prefix + [part];
    assert t[..|prefix|] == prefix;
    assert t[..|t|] == t;
    LongestKeyPrefixIs(table, t, |prefix|);
    assert t[|prefix|..] == [part];
    assert [part][..0] == [];
    assert PartTranslations(table, [part]) == table[[part]];
  }
}
