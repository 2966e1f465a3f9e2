/**
 * Scenes: which scene the loader is asked to load (Assets/Scripts/SceneLoader.cs). The next
 * level's name is computed from the two characters after "Level" in the active scene's name.
 */
module Scenes {
  import opened Options

  /** Substring out of range (the name is too short) and an unparsable number. */
  datatype SceneError = ArgumentOutOfRange | Format

  datatype Result<T> = Ok(value: T) | Err(error: SceneError)

  const LevelPrefix: string := "Level"

  predicate IsDigit(c: char)
  {
    '0' <= c <= '9'
  }

  function DigitValue(c: char): (d: nat)
    requires IsDigit(c)
    ensures d < 10
  {
    (c as int) - ('0' as int)
  }

  function DigitChar(d: nat): (c: char)
    requires d < 10
    ensures IsDigit(c) && DigitValue(c) == d
  {
    (('0' as int) + d) as char
  }

  /** The white space an integer may be padded with: space and tab through carriage return. */
  predicate IsWhite(c: char)
  {
    c == ' ' || '\t' <= c <= '\r'
  }

  /**
   * Convert.ToInt32 on a two-character string: white space may pad the number on either side
   * and a sign may lead it; anything else is a format error.
   */
  function ParseTwoChars(t: string): (r: Result<int>)
    requires |t| == 2
    ensures r.Ok? ==> -9 <= r.value <= 99
    ensures IsDigit(t[0]) && IsDigit(t[1]) ==> r == Ok(10 * DigitValue(t[0]) + DigitValue(t[1]))
    ensures IsDigit(t[1]) && (IsWhite(t[0]) || t[0] == '+') ==> r == Ok(DigitValue(t[1]))
    ensures IsDigit(t[1]) && t[0] == '-' ==> r == Ok(-(DigitValue(t[1]) as int))
    ensures IsDigit(t[0]) && IsWhite(t[1]) ==> r == Ok(DigitValue(t[0]))
    ensures r.Err? <==> !((IsDigit(t[0]) && IsDigit(t[1])) ||
                          (IsDigit(t[0]) && IsWhite(t[1])) ||
                          ((IsWhite(t[0]) || t[0] == '+' || t[0] == '-') && IsDigit(t[1])))
    ensures r.Err? ==> r.error == Format
  {
    var a, b := t[0], t[1];
    if IsDigit(a) && IsDigit(b) then Ok(10 * DigitValue(a) + DigitValue(b))
    else if IsDigit(a) && IsWhite(b) then Ok(DigitValue(a))
    else if (IsWhite(a) || a == '+') && IsDigit(b) then Ok(DigitValue(b))
    else if a == '-' && IsDigit(b) then Ok(-(DigitValue(b) as int))
    else Err(Format)
  }

  /** The level index of a scene name: the number in characters 5 and 6. */
  function LevelIndex(name: string): (r: Result<int>)
    ensures |name| < 7 <==> r == Err(ArgumentOutOfRange)
    ensures |name| >= 7 ==> r == ParseTwoChars(name[5..7])
    ensures r.Ok? ==> -9 <= r.value <= 99
  {
    if |name| < 7 then Err(ArgumentOutOfRange) else ParseTwoChars(name[5..7])
  }

  /** The number a string of decimal digits denotes, most significant first. */
  function DecimalValue(s: string): (v: nat)
    requires forall k :: 0 <= k < |s| ==> IsDigit(s[k])
  {
    if |s| == 0 then 0 else 10 * DecimalValue(s[..|s| - 1]) + DigitValue(s[|s| - 1])
  }

  /** The decimal digits of a natural number, most significant first, without leading zeros. */
  function FormatNat(n: nat): (s: string)
    ensures |s| >= 1 && forall k :: 0 <= k < |s| ==> IsDigit(s[k])
    ensures DecimalValue(s) == n
    ensures s[0] == '0' <==> n == 0
    ensures n < 10 ==> s == [DigitChar(n)]
    ensures 10 <= n < 100 ==> s == [DigitChar(n / 10), DigitChar(n % 10)]
  {
    if n < 10 then [DigitChar(n)] else FormatNat(n / 10) + [DigitChar(n % 10)]
  }

  /** An integer in decimal, with a leading minus sign when negative. */
  function FormatInt(n: int): (s: string)
    ensures n >= 0 ==> s == FormatNat(n)
    ensures n < 0 ==> s == "-" + FormatNat(-n)
  {
    if n < 0 then "-" + FormatNat(-n) else FormatNat(n)
  }

  /** The name of the level after level `index`: "Level", a "0" below 9, then index + 1. */
  function NextLevelName(index: int): (name: string)
    ensures |name| >= 6 && name[..5] == LevelPrefix
    ensures index < 9 ==> name[5] == '0' && name[6..] == FormatInt(index + 1)
    ensures index >= 9 ==> name[5..] == FormatInt(index + 1)
  {
    LevelPrefix + (if index < 9 then "0" else "") + FormatInt(index + 1)
  }

  /** The next level's name for an active scene name, or the error reading its index raises. */
  function NextLevel(active: string): (r: Result<string>)
    ensures r.Ok? <==> LevelIndex(active).Ok?
    ensures r.Err? ==> r.error == LevelIndex(active).error
    ensures r.Ok? ==> LevelPrefix <= r.value
  {
    match LevelIndex(active)
    case Ok(k) => Ok(NextLevelName(k))
    case Err(e) => Err(e)
  }

  /**
   * For indices 0 to 98 the next name is seven characters long and reading its index back
   * gives exactly one more.
   */
  lemma NextLevelRoundTrip(k: int)
    requires 0 <= k <= 98
    ensures |NextLevelName(k)| == 7
    ensures NextLevelName(k)[..5] == LevelPrefix
    ensures LevelIndex(NextLevelName(k)) == Ok(k + 1)
  {
  }

  /** Loading the next level from level k (0 to 98) leads to a scene whose index is k + 1. */
  lemma LevelsAdvanceByOne(active: string, k: int)
    requires LevelIndex(active) == Ok(k) && 0 <= k <= 98
    ensures NextLevel(active).Ok?
    ensures LevelIndex(NextLevel(active).value) == Ok(k + 1)
  {
  }

  class SceneLoader {
    var sceneToLoad: string

    constructor ()
      ensures sceneToLoad == ""
    {
      sceneToLoad := "";
    }

    /** Records the scene to load; the asynchronous load and camera outro are not modelled. */
    method Load(scene: string)
      modifies this
      ensures sceneToLoad == scene
    {
      sceneToLoad := scene;
    }

    /** Loads the level after the active one; a malformed name raises before anything is recorded. */
    method LoadNextLevel(active: string) returns (error: Option<SceneError>)
      modifies this
      ensures NextLevel(active).Ok? ==> error == None && sceneToLoad == NextLevel(active).value
      ensures NextLevel(active).Err? ==> error == Some(NextLevel(active).error) && sceneToLoad == old(sceneToLoad)
    {
      var index := LevelIndex(active);
      if index.Err? {
        return Some(index.error);
      }
      Load(NextLevelName(index.value));
      error := None;
    }

    /** Reloads the active scene under its own name. */
    method Restart(active: string)
      modifies this
      ensures sceneToLoad == active
    {
      Load(active);
    }
  }
}
