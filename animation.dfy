/**
 * Looking up an animation clip by name in an animator controller's clip list,
 * as the double-jump auto-clear and the enemy's attack delay both do.
 * A `None` entry is a null clip, skipped by both loops.
 */
module Animation {
  import opened Wrappers

  datatype Clip = Clip(name: string, length: real)

  /** Ordinal comparison, or ordinal ignoring ASCII letter case. */
  function Upper(c: char): char
  {
    if 'a' <= c <= 'z' then (c as int - 32) as char else c
  }

  predicate NamesMatch(a: string, b: string, ignoreCase: bool)
  {
    if ignoreCase then |a| == |b| && forall i :: 0 <= i < |a| ==> Upper(a[i]) == Upper(b[i])
    else a == b
  }

  predicate IsMatch(clip: Option<Clip>, name: string, ignoreCase: bool)
  {
    clip.Some? && NamesMatch(clip.value.name, name, ignoreCase)
  }

  /** Index of the first non-null clip whose name matches. */
  function FirstMatch(clips: seq<Option<Clip>>, name: string, ignoreCase: bool): (r: Option<nat>)
    ensures r.Some? ==> r.value < |clips| && IsMatch(clips[r.value], name, ignoreCase)
    ensures r.Some? ==> forall j :: 0 <= j < r.value ==> !IsMatch(clips[j], name, ignoreCase)
    ensures r.None? ==> forall j :: 0 <= j < |clips| ==> !IsMatch(clips[j], name, ignoreCase)
  {
    if |clips| == 0 then None
    else if IsMatch(clips[0], name, ignoreCase) then Some(0)
    else
      var rest := FirstMatch(clips[1..], name, ignoreCase);
      if rest.Some? then Some(rest.value + 1) else None
  }

  /** The `foreach ... break` search: the length of the first matching clip, else `fallback`. */
  method ClipLengthOr(clips: seq<Option<Clip>>, name: string, ignoreCase: bool, fallback: real)
    returns (len: real)
    ensures FirstMatch(clips, name, ignoreCase).Some? ==>
              len == clips[FirstMatch(clips, name, ignoreCase).value].value.length
    ensures FirstMatch(clips, name, ignoreCase).None? ==> len == fallback
  {
    len := fallback;
    var i := 0;
    while i < |clips|
      invariant 0 <= i <= |clips|
      invariant forall j :: 0 <= j < i ==> !IsMatch(clips[j], name, ignoreCase)
      invariant len == fallback
    {
      if clips[i].Some? && NamesMatch(clips[i].value.name, name, ignoreCase) {
        len := clips[i].value.length;
        return;
      }
      i := i + 1;
    }
  }
}
