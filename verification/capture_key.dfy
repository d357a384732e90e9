/**
 * The API-key shape check of the capture service (`isValidApiKey`).
 *
 * A key is accepted when everything after its first three characters matches,
 * case-insensitively, the anchored pattern
 *   ^[0-9a-f]{8}-[0-9a-f]{4}-[1-5][0-9a-f]{3}-[89ab][0-9a-f]{3}-[0-9a-f]{12}$
 * The pattern is kept as data (a list of fixed-count character classes) and
 * matched by `Matches`; `UuidLayout` is an independent, position-by-position
 * description of the same shape, and `MatchesIffLayout` proves the two agree.
 */
module CaptureKey {

  /** Character classes that occur in the key pattern. */
  datatype CharClass = Hex | Dash | Version | Variant

  /** `c` belongs to class `k`; the pattern carries the `i` flag, so letters match in either case. */
  predicate InClass(k: CharClass, c: char) {
    match k
    case Hex => '0' <= c <= '9' || 'a' <= c <= 'f' || 'A' <= c <= 'F'
    case Dash => c == '-'
    case Version => '1' <= c <= '5'
    case Variant => c == '8' || c == '9' || c == 'a' || c == 'b' || c == 'A' || c == 'B'
  }

  /**
   * A regular expression made of fixed-count items only, as the key pattern is:
   * `Item(k, n, rest)` is class `k` repeated exactly `n` times, then `rest`.
   */
  datatype Pattern = End | Item(cls: CharClass, count: nat, rest: Pattern)

  /** The key pattern, item by item. */
  function UuidPattern(): Pattern {
    Item(Hex, 8, Item(Dash, 1, Item(Hex, 4, Item(Dash, 1,
    Item(Version, 1, Item(Hex, 3, Item(Dash, 1,
    Item(Variant, 1, Item(Hex, 3, Item(Dash, 1, Item(Hex, 12, End)))))))))))
  }

  /** Number of characters `p` matches. */
  function Width(p: Pattern): nat {
    match p
    case End => 0
    case Item(_, n, rest) => n + Width(rest)
  }

  /** The class that `p` requires at position `i`. */
  function ClassAt(p: Pattern, i: nat): CharClass
    requires i < Width(p)
  {
    match p
    case Item(k, n, rest) => if i < n then k else ClassAt(rest, i - n)
  }

  /**
   * Anchored match (`^…$`) of the whole of `s`: `s` is exactly as long as the
   * pattern, and each character is in the class its position calls for.
   */
  predicate Matches(p: Pattern, s: string) {
    |s| == Width(p) && forall i :: 0 <= i < |s| ==> InClass(ClassAt(p, i), s[i])
  }

  /** Hexadecimal digit, either case. */
  predicate IsHexDigit(c: char) {
    '0' <= c <= '9' || 'a' <= c <= 'f' || 'A' <= c <= 'F'
  }

  /**
   * The textual UUID layout: 36 characters in groups of 8-4-4-4-12 hex digits
   * separated by dashes, the version digit (position 14) between 1 and 5 and
   * the variant digit (position 19) one of 8, 9, a, b.
   */
  predicate UuidLayout(s: string) {
    && |s| == 36
    && (forall i :: 0 <= i < 36 ==>
          if i == 8 || i == 13 || i == 18 || i == 23 then s[i] == '-' else IsHexDigit(s[i]))
    && '1' <= s[14] <= '5'
    && s[19] in "89abAB"
  }

  /** `uuid.substring(3, uuid.length)`: JavaScript clamps both ends to the length, so a key shorter than 3 gives "". */
  function AfterPrefix(key: string): (rest: string)
    ensures |key| >= 3 ==> rest == key[3..]
    ensures |key| < 3 ==> rest == ""
  {
    if |key| < 3 then "" else key[3..]
  }

  /**
   * `isValidApiKey`: the pattern test on the key without its first three
   * characters. A key is accepted exactly when it is 39 characters long and
   * its last 36 have the UUID layout.
   */
  function IsValidApiKey(key: string): (ok: bool)
    ensures ok <==> |key| == 39 && UuidLayout(key[3..])
  {
    MatchesIffLayout(AfterPrefix(key));
    Matches(UuidPattern(), AfterPrefix(key))
  }

  /** The class the key layout calls for at position `i`. */
  function LayoutClass(i: nat): CharClass {
    if i == 8 || i == 13 || i == 18 || i == 23 then Dash
    else if i == 14 then Version
    else if i == 19 then Variant
    else Hex
  }

  /** Skipping the first item of a pattern. */
  lemma ClassAtRest(p: Pattern, i: nat)
    requires p.Item? && p.count <= i < Width(p)
    ensures ClassAt(p, i) == ClassAt(p.rest, i - p.count)
  {
  }

  /** Positions 0 to 13 of the key pattern: eight hex digits, a dash, four hex digits, a dash. */
  lemma UuidPatternHead(i: nat)
    requires i < 14
    ensures Width(UuidPattern()) == 36 && ClassAt(UuidPattern(), i) == LayoutClass(i)
  {
    var p0 := UuidPattern();
    if 8 <= i { ClassAtRest(p0, i); }
    if 9 <= i { ClassAtRest(p0.rest, i - 8); }
    if 13 <= i { ClassAtRest(p0.rest.rest, i - 9); }
  }

  /** From position 14 on, the key pattern reads as its fifth item onwards (version digit first). */
  lemma ShiftToVersion(i: nat)
    requires 14 <= i < 36
    ensures Width(UuidPattern()) == 36
    ensures ClassAt(UuidPattern(), i) == ClassAt(UuidPattern().rest.rest.rest.rest, i - 14)
  {
    var p0 := UuidPattern();
    ClassAtRest(p0, i);
    ClassAtRest(p0.rest, i - 8);
    ClassAtRest(p0.rest.rest, i - 9);
    ClassAtRest(p0.rest.rest.rest, i - 13);
  }

  /** From position 24 on, the key pattern reads as its last item: twelve hex digits. */
  lemma ShiftToNode(i: nat)
    requires 24 <= i < 36
    ensures Width(UuidPattern()) == 36 && ClassAt(UuidPattern(), i) == Hex
  {
    var p4 := UuidPattern().rest.rest.rest.rest;
    ShiftToVersion(i);
    ClassAtRest(p4, i - 14);
    ClassAtRest(p4.rest, i - 15);
    ClassAtRest(p4.rest.rest, i - 18);
    ClassAtRest(p4.rest.rest.rest, i - 19);
    ClassAtRest(p4.rest.rest.rest.rest, i - 20);
    ClassAtRest(p4.rest.rest.rest.rest.rest, i - 23);
  }

  /** Positions 14 to 23: the version digit, three hex digits, a dash, the variant digit, three hex digits, a dash. */
  lemma UuidPatternMiddle(i: nat)
    requires 14 <= i < 24
    ensures Width(UuidPattern()) == 36 && ClassAt(UuidPattern(), i) == LayoutClass(i)
  {
    var p4 := UuidPattern().rest.rest.rest.rest;
    ShiftToVersion(i);
    if 15 <= i { ClassAtRest(p4, i - 14); }
    if 18 <= i { ClassAtRest(p4.rest, i - 15); }
    if 19 <= i { ClassAtRest(p4.rest.rest, i - 18); }
    if 20 <= i { ClassAtRest(p4.rest.rest.rest, i - 19); }
    if 23 <= i { ClassAtRest(p4.rest.rest.rest.rest, i - 20); }
  }

  /** Positions 24 to 35: twelve hex digits. */
  lemma UuidPatternTail(i: nat)
    requires 24 <= i < 36
    ensures Width(UuidPattern()) == 36 && ClassAt(UuidPattern(), i) == LayoutClass(i)
  {
    ShiftToNode(i);
  }

  /** The key pattern spans 36 characters and calls for the layout's class at every position. */
  lemma UuidPatternPositions(i: nat)
    ensures Width(UuidPattern()) == 36
    ensures i < 36 ==> ClassAt(UuidPattern(), i) == LayoutClass(i)
  {
    if i < 14 { UuidPatternHead(i); }
    else if i < 24 { UuidPatternMiddle(i); }
    else if i < 36 { UuidPatternTail(i); }
    else { UuidPatternHead(0); }
  }

  /** The pattern and the layout describe the same strings. */
  lemma MatchesIffLayout(s: string)
    ensures Matches(UuidPattern(), s) <==> UuidLayout(s)
  {
    UuidPatternPositions(0);
    if |s| == 36 {
      forall i | 0 <= i < 36 ensures ClassAt(UuidPattern(), i) == LayoutClass(i) {
        UuidPatternPositions(i);
      }
      if Matches(UuidPattern(), s) {
        assert InClass(LayoutClass(14), s[14]) && InClass(LayoutClass(19), s[19]);
        forall i | 0 <= i < 36
          ensures if i == 8 || i == 13 || i == 18 || i == 23 then s[i] == '-' else IsHexDigit(s[i])
        {
          assert InClass(LayoutClass(i), s[i]);
        }
      }
      if UuidLayout(s) {
        forall i | 0 <= i < 36 ensures InClass(ClassAt(UuidPattern(), i), s[i]) {
          assert InClass(LayoutClass(i), s[i]);
        }
      }
    }
  }

  /** Any three-character prefix followed by a well-formed UUID is accepted; the prefix itself is never inspected. */
  lemma PrefixedUuidAccepted(prefix: string, uuid: string)
    requires |prefix| == 3 && UuidLayout(uuid)
    ensures IsValidApiKey(prefix + uuid)
  {
    assert (prefix + uuid)[3..] == uuid;
  }
}
