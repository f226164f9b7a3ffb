/**
 * src/app/_components/auth/avatar.tsx: the initials shown in the avatar
 * button. Upper-casing is modelled for ASCII letters only.
 */
module Avatar {
  import opened Wrappers

  predicate IsLowerAscii(c: char)
  {
    'a' <= c <= 'z'
  }

  /** `toUpperCase` on one character, for ASCII: a-z become A-Z, everything else is kept. */
  function ToUpper(c: char): (u: char)
    ensures !IsLowerAscii(u)
    ensures IsLowerAscii(c) ==> u as int == c as int - 32
    ensures !IsLowerAscii(c) ==> u == c
  {
    if IsLowerAscii(c) then (c as int - 32) as char else c
  }

  /**
   * `name?.[0]?.toUpperCase() ?? ""`: empty for a missing or empty name,
   * otherwise the upper-cased first character.
   */
  function GetFirstLetter(name: Option<string>): (letter: string)
    ensures |letter| <= 1
    ensures letter == [] <==> name.None? || name.value == []
    ensures letter != [] ==> letter[0] == ToUpper(name.value[0]) && !IsLowerAscii(letter[0])
  {
    match name
    case None => ""
    case Some(s) => if s == [] then "" else [ToUpper(s[0])]
  }

  /** The letter depends on nothing but the name's first character. */
  lemma FirstLetterOnlyReadsHead(a: string, b: string)
    requires a != [] && b != [] && a[0] == b[0]
    ensures GetFirstLetter(Some(a)) == GetFirstLetter(Some(b))
  {
  }

  /** The signed-in user's names, each possibly missing. */
  datatype User = User(firstName: Option<string>, lastName: Option<string>)

  /**
   * `caps`: the first-name initial followed by the last-name initial; at most
   * two characters and no lower-case ASCII letter.
   */
  function Caps(user: Option<User>): (caps: string)
    ensures |caps| <= 2
    ensures forall i :: 0 <= i < |caps| ==> !IsLowerAscii(caps[i])
    ensures user.None? ==> caps == ""
    ensures user.Some? ==>
      var first := user.value.firstName;
      var last := user.value.lastName;
      && |caps| == (if first.Some? && first.value != [] then 1 else 0) + (if last.Some? && last.value != [] then 1 else 0)
      && (first.Some? && first.value != [] ==> caps[0] == ToUpper(first.value[0]))
      && (last.Some? && last.value != [] ==> caps[|caps| - 1] == ToUpper(last.value[0]))
  {
    match user
    case None => GetFirstLetter(None) + GetFirstLetter(None)
    case Some(u) => GetFirstLetter(u.firstName) + GetFirstLetter(u.lastName)
  }
}
