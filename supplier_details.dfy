/**
 * The text `components/suppliers/supplier-details.tsx` derives from a
 * supplier record: the avatar initials (`split(' ')`, first character of
 * each piece, `join('')`, `toUpperCase()`) and the `||` display fallbacks.
 */
module SupplierDetails {
  import opened Wrappers
  import JsText

  /** The supplier record of `types/supplier.ts`; optional fields are `Option`. */
  datatype Supplier = Supplier(
    id: string,
    name: string,
    email: string,
    phone: string,
    address: string,
    supplierType: Option<string>,
    siret: Option<string>,
    createdAt: Option<string>,
    sector: Option<string>,
    preferredPaymentMethod: Option<string>,
    city: Option<string>,
    country: Option<string>,
    companyName: Option<string>)

  // ---------------------------------------------------------------------------
  // Initials
  // ---------------------------------------------------------------------------

  /** `s.split(' ')`: the pieces between single spaces, empty ones included; "" gives [""]. */
  function SplitOnSpace(s: string): (r: seq<string>)
    ensures |r| >= 1
    ensures forall k :: 0 <= k < |r| ==> ' ' !in r[k]
  {
    if s == [] then [""]
    else
      var rest := SplitOnSpace(s[1..]);
      if s[0] == ' ' then [""] + rest
      else [[s[0]] + rest[0]] + rest[1..]
  }

  /** `pieces.join(' ')`, the inverse of `SplitOnSpace`. */
  function JoinWithSpace(pieces: seq<string>): string
    requires |pieces| >= 1
  {
    if |pieces| == 1 then pieces[0] else pieces[0] + " " + JoinWithSpace(pieces[1..])
  }

  /** `pieces.map((n) => n[0]).join('')`: an empty piece gives `undefined`, which joins as "". */
  function FirstChars(pieces: seq<string>): string {
    if pieces == [] then ""
    else (if pieces[0] == "" then "" else [pieces[0][0]]) + FirstChars(pieces[1..])
  }

  /** `toUpperCase()` on ASCII letters; every other character is kept. */
  function ToUpperAscii(s: string): (r: string)
    ensures |r| == |s|
    ensures forall k :: 0 <= k < |s| ==> r[k] == UpperAscii(s[k])
  {
    if s == [] then "" else [UpperAscii(s[0])] + ToUpperAscii(s[1..])
  }

  function UpperAscii(c: char): char {
    if 'a' <= c <= 'z' then (c as int - 32) as char else c
  }

  /** `getInitials(name)`: the upper-cased first character of every word. */
  function GetInitials(name: string): (r: string)
    ensures r == ToUpperAscii(WordStarts(name, true))
  {
    FirstCharsAreWordStarts(name);
    ToUpperAscii(FirstChars(SplitOnSpace(name)))
  }

  /**
   * Reference definition: the characters that start a word, a word start being
   * a non-space character at the beginning (when `atStart`) or after a space.
   */
  function WordStarts(s: string, atStart: bool): string {
    if s == [] then ""
    else if s[0] == ' ' then WordStarts(s[1..], true)
    else (if atStart then [s[0]] else "") + WordStarts(s[1..], false)
  }

  /** The number of non-empty pieces. */
  function NonEmptyCount(pieces: seq<string>): nat {
    if pieces == [] then 0 else (if pieces[0] == "" then 0 else 1) + NonEmptyCount(pieces[1..])
  }

  /** Joining the pieces back with spaces gives the original text. */
  lemma {:induction false} SplitJoinRoundTrip(s: string)
    ensures JoinWithSpace(SplitOnSpace(s)) == s
  {
    if s != [] {
      var rest := SplitOnSpace(s[1..]);
      SplitJoinRoundTrip(s[1..]);
      if s[0] == ' ' {
        assert SplitOnSpace(s)[1..] == rest;
        assert s == " " + s[1..];
      } else if |rest| == 1 {
        assert s == [s[0]] + rest[0];
      } else {
        assert SplitOnSpace(s)[1..] == rest[1..];
        assert s == [s[0]] + (rest[0] + " " + JoinWithSpace(rest[1..]));
      }
    }
  }

  /**
   * The first characters of the pieces are exactly the word starts; those of
   * the pieces after the first are the word starts once the first piece is passed.
   */
  lemma {:induction false} FirstCharsAreWordStarts(s: string)
    ensures FirstChars(SplitOnSpace(s)) == WordStarts(s, true)
    ensures FirstChars(SplitOnSpace(s)[1..]) == WordStarts(s, false)
  {
    if s != [] {
      var rest := SplitOnSpace(s[1..]);
      FirstCharsAreWordStarts(s[1..]);
      if s[0] == ' ' {
        assert SplitOnSpace(s)[1..] == rest;
      } else {
        assert SplitOnSpace(s)[1..] == rest[1..];
      }
    }
  }

  /** One character per non-empty piece. */
  lemma {:induction false} FirstCharsLength(pieces: seq<string>)
    ensures |FirstChars(pieces)| == NonEmptyCount(pieces)
  {
    if pieces != [] {
      FirstCharsLength(pieces[1..]);
    }
  }

  /** The initials are the upper-cased word starts, one per non-empty piece. */
  lemma InitialsAreUpperWordStarts(name: string)
    ensures GetInitials(name) == ToUpperAscii(WordStarts(name, true))
    ensures |GetInitials(name)| == NonEmptyCount(SplitOnSpace(name))
  {
    FirstCharsAreWordStarts(name);
    FirstCharsLength(SplitOnSpace(name));
  }

  /** A text without spaces is a single piece. */
  lemma {:induction false} NoSpaceIsOnePiece(s: string)
    requires ' ' !in s
    ensures SplitOnSpace(s) == [s]
  {
    if s != [] {
      assert s[0] in s;
      forall k | 0 <= k < |s| - 1
        ensures s[1..][k] != ' '
      {
        assert s[1..][k] == s[k + 1] && s[k + 1] in s;
      }
      NoSpaceIsOnePiece(s[1..]);
      assert [s[0]] + s[1..] == s;
    }
  }

  /** The empty name has no initials; a one-word name has its first letter, upper-cased. */
  lemma InitialsOfOneWord(word: string)
    requires ' ' !in word
    ensures word == "" ==> GetInitials(word) == ""
    ensures word != "" ==> GetInitials(word) == [UpperAscii(word[0])]
  {
    NoSpaceIsOnePiece(word);
    if word != "" {
      assert [word][1..] == [];
      assert FirstChars([word]) == [word[0]];
    }
  }

  /** Leading, trailing and repeated spaces add no initial. */
  lemma ExtraSpacesAddNothing(a: string, b: string)
    ensures GetInitials(" " + a) == GetInitials(a)
    ensures GetInitials(a + " " + b) == GetInitials(a + "  " + b)
  {
    InitialsAreUpperWordStarts(" " + a);
    InitialsAreUpperWordStarts(a);
    InitialsAreUpperWordStarts(a + " " + b);
    InitialsAreUpperWordStarts(a + "  " + b);
    assert (" " + a)[1..] == a;
    WordStartsAcrossSpaces(a, b);
  }

  /** Word starts over `a`, one or two spaces, then `b`. */
  lemma {:induction false} WordStartsAcrossSpaces(a: string, b: string)
    ensures forall at: bool :: WordStarts(a + " " + b, at) == WordStarts(a + "  " + b, at)
  {
    forall at: bool
      ensures WordStarts(a + " " + b, at) == WordStarts(a + "  " + b, at)
    {
      if a == [] {
        assert (" " + b)[1..] == b;
        assert ("  " + b)[1..] == " " + b;
        assert (" " + b)[1..] == b;
      } else {
        WordStartsAcrossSpaces(a[1..], b);
        assert (a + " " + b)[1..] == a[1..] + " " + b;
        assert (a + "  " + b)[1..] == a[1..] + "  " + b;
      }
    }
  }

  // ---------------------------------------------------------------------------
  // Display fallbacks
  // ---------------------------------------------------------------------------

  /** The type badge: the supplier's type, or "Fournisseur". */
  function TypeBadge(s: Supplier): (r: string)
    ensures r != ""
    ensures s.supplierType.Some? && s.supplierType.value != "" ==> r == s.supplierType.value
  {
    JsText.OptionalOr(s.supplierType, "Fournisseur")
  }

  /** The company-name line: the company name, or the supplier's name when absent or empty. */
  function CompanyNameLine(s: Supplier): (r: string)
    ensures s.companyName.Some? && s.companyName.value != "" ==> r == s.companyName.value
    ensures s.companyName.None? || s.companyName == Some("") ==> r == s.name
  {
    JsText.OptionalOr(s.companyName, s.name)
  }

  /** The detail lines in display order; masculine fields fall back to "Non renseigné", feminine ones to "Non renseignée". */
  datatype DetailLines = DetailLines(
    phone: string, siret: string, createdAt: DateLine, sector: string,
    preferredPaymentMethod: string, address: string, city: string, country: string)

  /** The registration date: handed to the date formatter, or the placeholder. */
  datatype DateLine = DatePlaceholder(text: string) | FormattedDate(iso: string)

  const NotGivenM := "Non renseigné"
  const NotGivenF := "Non renseignée"

  /** No detail line is ever blank: each shows its value or its placeholder. */
  function Details(s: Supplier): (r: DetailLines)
    ensures r.phone != "" && r.siret != "" && r.sector != "" && r.preferredPaymentMethod != ""
    ensures r.address != "" && r.city != "" && r.country != ""
    ensures r.createdAt.DatePlaceholder? ==> r.createdAt.text != ""
  {
    DetailLines(
      JsText.StringOr(s.phone, NotGivenM),
      JsText.OptionalOr(s.siret, NotGivenM),
      if s.createdAt.Some? && s.createdAt.value != "" then FormattedDate(s.createdAt.value) else DatePlaceholder(NotGivenF),
      JsText.OptionalOr(s.sector, NotGivenM),
      JsText.OptionalOr(s.preferredPaymentMethod, NotGivenM),
      JsText.StringOr(s.address, NotGivenF),
      JsText.OptionalOr(s.city, NotGivenF),
      JsText.OptionalOr(s.country, NotGivenM))
  }

  /** A given, non-empty value is shown as is; a missing or empty one shows its placeholder. */
  lemma DetailsShowGivenValues(s: Supplier)
    ensures s.phone != "" ==> Details(s).phone == s.phone
    ensures s.phone == "" ==> Details(s).phone == NotGivenM
    ensures s.address != "" ==> Details(s).address == s.address
    ensures s.address == "" ==> Details(s).address == NotGivenF
    ensures s.siret.Some? && s.siret.value != "" ==> Details(s).siret == s.siret.value
    ensures s.siret.None? || s.siret == Some("") ==> Details(s).siret == NotGivenM
    ensures s.sector.Some? && s.sector.value != "" ==> Details(s).sector == s.sector.value
    ensures s.sector.None? || s.sector == Some("") ==> Details(s).sector == NotGivenM
    ensures s.preferredPaymentMethod.Some? && s.preferredPaymentMethod.value != "" ==>
      Details(s).preferredPaymentMethod == s.preferredPaymentMethod.value
    ensures s.preferredPaymentMethod.None? || s.preferredPaymentMethod == Some("") ==>
      Details(s).preferredPaymentMethod == NotGivenM
    ensures s.city.Some? && s.city.value != "" ==> Details(s).city == s.city.value
    ensures s.city.None? || s.city == Some("") ==> Details(s).city == NotGivenF
    ensures s.country.Some? && s.country.value != "" ==> Details(s).country == s.country.value
    ensures s.country.None? || s.country == Some("") ==> Details(s).country == NotGivenM
    ensures s.createdAt.Some? && s.createdAt.value != "" ==> Details(s).createdAt == FormattedDate(s.createdAt.value)
    ensures Details(s).createdAt.DatePlaceholder? <==> s.createdAt.None? || s.createdAt == Some("")
  {
  }

  /** The company line is never empty for a named supplier, and the type badge never empty at all. */
  lemma FallbacksNeverBlank(s: Supplier)
    ensures s.name != "" ==> CompanyNameLine(s) != ""
    ensures TypeBadge(s) != ""
    ensures (s.companyName.None? || s.companyName == Some("")) ==> CompanyNameLine(s) == s.name
  {
  }
}
