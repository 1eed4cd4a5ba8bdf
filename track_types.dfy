/**
 * The closed set of media types a track may declare, and the lookup of a type
 * by name that the track constructor performs (`Track.java` lines 83-90).
 */
module TrackTypes {

  datatype TrackType = Default | Dash | Hls | SmoothStreaming

  /** Declaration order of the enum, the order `TrackType.values()` returns. */
  const AllTypes: seq<TrackType> := [Default, Dash, Hls, SmoothStreaming]

  /** The enum's `name` field. */
  function Name(t: TrackType): string
  {
    match t
    case Default => "default"
    case Dash => "dash"
    case Hls => "hls"
    case SmoothStreaming => "smoothstreaming"
  }

  /** `Character.toUpperCase` restricted to ASCII letters. */
  function UpperAscii(c: char): char
  {
    if 'a' <= c <= 'z' then (c as int - 32) as char else c
  }

  /** `Character.toLowerCase` restricted to ASCII letters. */
  function LowerAscii(c: char): char
  {
    if 'A' <= c <= 'Z' then (c as int + 32) as char else c
  }

  /** The per-character test of `String.equalsIgnoreCase`. */
  predicate SameCharIgnoringCase(a: char, b: char)
  {
    a == b || UpperAscii(a) == UpperAscii(b) || LowerAscii(UpperAscii(a)) == LowerAscii(UpperAscii(b))
  }

  /** `String.equalsIgnoreCase`: equal lengths and every position matches ignoring case. */
  predicate EqualsIgnoreCase(x: string, y: string)
  {
    |x| == |y| && forall i :: 0 <= i < |x| ==> SameCharIgnoringCase(x[i], y[i])
  }

  /** `t.name.equalsIgnoreCase(typeName)`. */
  predicate Matches(t: TrackType, typeName: string)
  {
    EqualsIgnoreCase(Name(t), typeName)
  }

  /** No string names two different types, so "the first match" is "the match". */
  lemma MatchIsUnique(a: TrackType, b: TrackType, typeName: string)
    requires Matches(a, typeName) && Matches(b, typeName)
    ensures a == b
  {
  }

  /** A string with its ASCII letters in capitals. */
  function UpperAll(s: string): (r: string)
    ensures |r| == |s| && forall i :: 0 <= i < |s| ==> r[i] == UpperAscii(s[i])
  {
    seq(|s|, i requires 0 <= i < |s| => UpperAscii(s[i]))
  }

  /** The lookup ignores case: a string names a type exactly when its capitalised form does. */
  lemma MatchIgnoresCase(t: TrackType, s: string)
    ensures Matches(t, s) <==> Matches(t, UpperAll(s))
  {
    var n := Name(t);
    var u := UpperAll(s);
    if |n| == |s| {
      forall i | 0 <= i < |n|
        ensures SameCharIgnoringCase(n[i], s[i]) <==> SameCharIgnoringCase(n[i], u[i])
      {
        assert UpperAscii(u[i]) == UpperAscii(s[i]);
      }
    }
  }

  /**
   * The loop over `TrackType.values()`: the type whose name equals `typeName`
   * ignoring case, or `Default` when there is none.
   */
  method ParseType(typeName: string) returns (t: TrackType)
    ensures Matches(t, typeName) || (t == Default && forall u :: !Matches(u, typeName))
    ensures forall u :: Matches(u, typeName) ==> t == u
  {
    t := Default;
    var i := 0;
    while i < |AllTypes|
      invariant 0 <= i <= |AllTypes|
      invariant t == Default
      invariant forall j :: 0 <= j < i ==> !Matches(AllTypes[j], typeName)
    {
      if EqualsIgnoreCase(Name(AllTypes[i]), typeName) {
        t := AllTypes[i];
        break;
      }
      i := i + 1;
    }
    if Matches(t, typeName) {
      forall u | Matches(u, typeName) ensures t == u {
        MatchIsUnique(t, u, typeName);
      }
    } else {
      forall u ensures !Matches(u, typeName) {
        assert u == AllTypes[0] || u == AllTypes[1] || u == AllTypes[2] || u == AllTypes[3];
      }
    }
  }
}
