/** The registration body (src/auth/dto/register.dto.ts) and its phone-number check, the
    anchored pattern `^\+234\d{10}$`. */
module RegisterDto {
  import opened Common
  import opened UserEntity

  const PhoneFormatMessage: string := "Phone number must be in the format +2341234567890"

  /** `role` must be a `UserRole` value (the type allows nothing else); the business
      verification number may be left out. */
  datatype RegisterDto = RegisterDto(
    email: string,
    phone: string,
    password: string,
    role: Role,
    business_verification: Option<string>)

  /** One position of an anchored pattern: a literal character, or `\d`. */
  datatype Atom = Literal(c: char) | Digit

  /** `\d` without the unicode flag: the ASCII digits only. */
  predicate IsAsciiDigit(c: char) {
    '0' <= c <= '9'
  }

  predicate AtomMatches(a: Atom, c: char) {
    match a
    case Literal(l) => c == l
    case Digit => IsAsciiDigit(c)
  }

  /** The pattern matches the whole string: one character per atom, nothing before the
      first and nothing after the last. */
  predicate Matches(s: string, pattern: seq<Atom>)
    decreases |pattern|
  {
    if pattern == [] then s == []
    else s != [] && AtomMatches(pattern[0], s[0]) && Matches(s[1..], pattern[1..])
  }

  /** `^\+234\d{10}$` */
  function PhonePattern(): (p: seq<Atom>)
    ensures |p| == 14
  {
    [Literal('+'), Literal('2'), Literal('3'), Literal('4')] + seq(10, _ => Digit)
  }

  predicate IsNigerianPhone(s: string) {
    Matches(s, PhonePattern())
  }

  /** An anchored pattern of single-character atoms matches exactly the strings of its
      length whose characters each match the atom at the same position. */
  lemma {:induction false} MatchesPointwise(s: string, pattern: seq<Atom>)
    ensures Matches(s, pattern) <==>
      |s| == |pattern| && forall i :: 0 <= i < |s| ==> AtomMatches(pattern[i], s[i])
    decreases |pattern|
  {
    if pattern != [] && s != [] {
      MatchesPointwise(s[1..], pattern[1..]);
      if |s| == |pattern| && forall i :: 0 <= i < |s| ==> AtomMatches(pattern[i], s[i]) {
        forall i | 0 <= i < |s[1..]|
          ensures AtomMatches(pattern[1..][i], s[1..][i])
        {
          assert AtomMatches(pattern[i + 1], s[i + 1]);
        }
      }
      if Matches(s, pattern) {
        forall i | 0 <= i < |s|
          ensures AtomMatches(pattern[i], s[i])
        {
          if i > 0 {
            assert AtomMatches(pattern[1..][i - 1], s[1..][i - 1]);
          }
        }
      }
    }
  }

  /** The phone rule spelled out: exactly fourteen characters, the prefix "+234", then ten
      ASCII digits. */
  lemma PhoneShape(s: string)
    ensures IsNigerianPhone(s) <==>
      && |s| == 14
      && s[..4] == "+234"
      && forall i :: 4 <= i < 14 ==> IsAsciiDigit(s[i])
  {
    var p := PhonePattern();
    MatchesPointwise(s, p);
    if |s| == 14 && s[..4] == "+234" && forall i :: 4 <= i < 14 ==> IsAsciiDigit(s[i]) {
      forall i | 0 <= i < 14
        ensures AtomMatches(p[i], s[i])
      {
        if i < 4 {
          assert s[i] == s[..4][i];
        }
      }
    }
    if IsNigerianPhone(s) {
      assert forall i :: 0 <= i < 4 ==> s[i] == p[i].c;
      assert s[..4] == "+234";
    }
  }

  /** The documented example is accepted. */
  lemma ExampleAccepted()
    ensures IsNigerianPhone("+2341234567890")
  {
    PhoneShape("+2341234567890");
  }

  /** The pattern is anchored at both ends: no accepted phone stays accepted with one more
      character before or after it (an eleventh digit, say). */
  lemma ExtraCharacterRejected(s: string, c: char)
    requires IsNigerianPhone(s)
    ensures !IsNigerianPhone(s + [c])
    ensures !IsNigerianPhone([c] + s)
  {
    PhoneShape(s);
    PhoneShape(s + [c]);
    PhoneShape([c] + s);
  }

  /** The validation the framework runs on the body before the service sees it. */
  function Validate(dto: RegisterDto): (r: Result<RegisterDto>)
    ensures r.Ok? <==> IsNigerianPhone(dto.phone)
    ensures r.Ok? ==> r.value == dto
    ensures r.Err? ==> r.error == BadRequest(PhoneFormatMessage)
  {
    if IsNigerianPhone(dto.phone) then Ok(dto) else Err(BadRequest(PhoneFormatMessage))
  }
}
