/**
 * The navigation bar's avatar: the initials of the user's name, the name
 * shown beside it, and a colour picked from eight by a string hash of the
 * name computed as JavaScript does, with 32-bit wrap-around in the shift.
 */
module Navbar {
  import opened Common
  import opened Text

  // ---------- getUserInitials ----------

  /** `word.charAt(0)`: the first character, or "" for an empty word. */
  function CharAt0(w: string): (r: string)
    ensures w == [] ==> r == ""
    ensures w != [] ==> r == [w[0]]
  {
    if w == [] then "" else [w[0]]
  }

  /** `words.map(word => word.charAt(0)).join('')`. */
  function FirstChars(words: seq<string>): (r: string)
    ensures |r| <= |words|
  {
    if words == [] then ""
    else FirstChars(words[..|words| - 1]) + CharAt0(words[|words| - 1])
  }

  /** `s.slice(0, n)`. */
  function Prefix(s: string, n: nat): (r: string)
    ensures |r| <= n && |r| <= |s| && r == s[..|r|]
    ensures |r| < n ==> r == s
  {
    if |s| <= n then s else s[..n]
  }

  function Initials(name: string): (r: string)
    ensures |r| <= 2
  {
    Prefix(Upper(FirstChars(Split(name, ' '))), 2)
  }

  /** With no empty words, the first characters are one per word. */
  lemma {:induction false} FirstCharsOfWords(words: seq<string>)
    requires forall i :: 0 <= i < |words| ==> words[i] != []
    ensures |FirstChars(words)| == |words|
    ensures forall i :: 0 <= i < |words| ==> FirstChars(words)[i] == words[i][0]
  {
    if words != [] {
      FirstCharsOfWords(words[..|words| - 1]);
    }
  }

  /** A name whose words are joined by single spaces gets the initials of those words. */
  lemma InitialsOfJoin(words: seq<string>)
    requires |words| >= 1
    requires forall i :: 0 <= i < |words| ==> ' ' !in words[i]
    ensures Initials(Join(" ", words)) == Prefix(Upper(FirstChars(words)), 2)
  {
    assert Join(" ", words) == Join([' '], words);
    SplitJoin(words, ' ');
  }

  /**
   * For a name made of words separated by single spaces, the initials are
   * the upper-cased first letters of the first word and, if there is one,
   * the second.
   */
  lemma InitialsOfWords(words: seq<string>)
    requires |words| >= 1
    requires forall i :: 0 <= i < |words| ==> words[i] != [] && ' ' !in words[i]
    ensures |words| == 1 ==> Initials(Join(" ", words)) == [UpperChar(words[0][0])]
    ensures |words| >= 2 ==> Initials(Join(" ", words)) == [UpperChar(words[0][0]), UpperChar(words[1][0])]
  {
    InitialsOfJoin(words);
    LeadingInitials(words);
  }

  lemma LeadingInitials(words: seq<string>)
    requires |words| >= 1
    requires forall i :: 0 <= i < |words| ==> words[i] != []
    ensures |words| == 1 ==> Prefix(Upper(FirstChars(words)), 2) == [UpperChar(words[0][0])]
    ensures |words| >= 2 ==> Prefix(Upper(FirstChars(words)), 2) == [UpperChar(words[0][0]), UpperChar(words[1][0])]
  {
    FirstCharsOfWords(words);
    var u := Upper(FirstChars(words));
    assert |u| == |words| && u[0] == UpperChar(words[0][0]);
    assert |words| >= 2 ==> u[1] == UpperChar(words[1][0]);
    PrefixTwo(u);
  }

  lemma PrefixTwo(u: string)
    requires |u| >= 1
    ensures |u| == 1 ==> Prefix(u, 2) == [u[0]]
    ensures |u| >= 2 ==> Prefix(u, 2) == [u[0], u[1]]
  {
  }

  /** The empty name has no initials. */
  lemma InitialsOfEmptyName()
    ensures Initials("") == ""
  {
    assert Split("", ' ') == [""];
    assert FirstChars([""]) == FirstChars([]) + CharAt0("");
  }

  // ---------- getDisplayName ----------

  datatype User = User(fullName: Option<string>, username: Option<string>)

  predicate HasText(s: Option<string>) {
    s.Some? && s.value != ""
  }

  /** full_name if truthy, else username if truthy, else 'User': never empty. */
  function DisplayName(user: Option<User>): (r: string)
    ensures r != ""
    ensures user.Some? && HasText(user.value.fullName) ==> r == user.value.fullName.value
    ensures user.Some? && !HasText(user.value.fullName) && HasText(user.value.username) ==> r == user.value.username.value
    ensures !(user.Some? && (HasText(user.value.fullName) || HasText(user.value.username))) ==> r == "User"
  {
    if user.Some? && HasText(user.value.fullName) then user.value.fullName.value
    else if user.Some? && HasText(user.value.username) then user.value.username.value
    else "User"
  }

  // ---------- getProfileColor ----------

  function Colors(): (r: seq<string>)
    ensures |r| == 8
  {
    ["var(--primary-color)", "var(--secondary-color)", "var(--success-color)",
     "#047857", "#10b981", "#22c55e", "#16a34a", "#15803d"]
  }

  const TwoTo31: int := 0x8000_0000
  const TwoTo32: int := 0x1_0000_0000

  /** ECMAScript ToInt32 on an integral number. */
  function ToInt32(x: int): (r: int)
    ensures -TwoTo31 <= r < TwoTo31
    ensures (x - r) % TwoTo32 == 0
    ensures -TwoTo31 <= x < TwoTo31 ==> r == x
  {
    var m := x % TwoTo32;
    if m >= TwoTo31 then m - TwoTo32 else m
  }

  /** `hash << 5`: the 32-bit shift of ToInt32(hash), wrapped to 32 bits. */
  function ShiftLeft5(h: int): (r: int)
    ensures -TwoTo31 <= r < TwoTo31
  {
    ToInt32(ToInt32(h) * 32)
  }

  /** One loop step: `hash = name.charCodeAt(i) + ((hash << 5) - hash)`. */
  function HashStep(h: int, code: int): int {
    code + (ShiftLeft5(h) - h)
  }

  /** The hash after the whole name: the loop's steps applied left to right from 0. */
  function Hash(s: string): int {
    if s == [] then 0
    else HashStep(Hash(s[..|s| - 1]), s[|s| - 1] as int)
  }

  function IntAbs(x: int): nat {
    if x < 0 then -x else x
  }

  /** `Math.abs(hash) % colors.length`. */
  function ColorIndex(name: string): (r: nat)
    ensures r < 8
  {
    IntAbs(Hash(name)) % 8
  }

  method GetProfileColor(name: string) returns (color: string)
    ensures color == Colors()[ColorIndex(name)]
  {
    var colors := Colors();
    var hash := 0;
    var i := 0;
    while i < |name|
      invariant 0 <= i <= |name|
      invariant hash == Hash(name[..i])
    {
      assert name[..i + 1][..i] == name[..i];
      hash := name[i] as int + (ShiftLeft5(hash) - hash);
      i := i + 1;
    }
    assert name[..|name|] == name;
    color := colors[IntAbs(hash) % |colors|];
  }

  /** The eight colours are distinct, so names with different indices get different colours; the empty name gets the first. */
  lemma ProfileColorRange(name: string)
    ensures forall i, j :: 0 <= i < j < |Colors()| ==> Colors()[i] != Colors()[j]
    ensures name == "" ==> ColorIndex(name) == 0
  {
  }

  /** A one-character name's hash is its character code. */
  lemma HashOfOneCharacter(ch: char)
    ensures Hash([ch]) == ch as int
    ensures ColorIndex([ch]) == (ch as int) % 8
  {
    assert [ch][..0] == [];
  }

  /** "Al": 108 + ((65 << 5) - 65) = 2123, so colour 3. */
  lemma ProfileColorOfAl()
    ensures Hash("Al") == 2123 && ColorIndex("Al") == 3
  {
    assert "Al"[..1] == "A";
    HashOfOneCharacter('A');
  }
}
