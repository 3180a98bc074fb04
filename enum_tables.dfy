/** The pattern the frontend uses for its enums: a string enum merged with a
    namespace holding a `descriptions` record and helper functions, whose
    `values()` keeps the string members of `Object.values` and whose
    `entries()` pairs each of them with its description. */
module EnumTables {
  import opened Wrappers

  /** A property value of the merged enum object: an enum member's string, or
      one of the namespace's objects and functions. */
  datatype Member = Str(s: string) | NonString

  /** The enum members first, in declaration order, then the namespace's
      members. */
  function EnumObject(codes: seq<string>, namespaceMembers: nat): (r: seq<Member>)
    ensures |r| == |codes| + namespaceMembers
    ensures forall i :: 0 <= i < |codes| ==> r[i] == Str(codes[i])
    ensures forall i :: |codes| <= i < |r| ==> r[i] == NonString
  {
    if namespaceMembers == 0 then
      if codes == [] then [] else EnumObject(codes[..|codes| - 1], 0) + [Str(codes[|codes| - 1])]
    else EnumObject(codes, namespaceMembers - 1) + [NonString]
  }

  /** `.filter(value => typeof value === 'string')`. */
  function StringValues(members: seq<Member>): seq<string>
  {
    if members == [] then []
    else (if members[0].Str? then [members[0].s] else []) + StringValues(members[1..])
  }

  /** The filter drops exactly the namespace's members: `values()` is the
      list of codes, in declaration order. */
  lemma {:induction false} StringValuesOfEnum(codes: seq<string>, namespaceMembers: nat)
    ensures StringValues(EnumObject(codes, namespaceMembers)) == codes
    decreases |codes| + namespaceMembers
  {
    var members := EnumObject(codes, namespaceMembers);
    if codes == [] {
      NoStrings(members);
    } else {
      var tail := EnumObject(codes[1..], namespaceMembers);
      assert members == [Str(codes[0])] + tail;
      assert members[1..] == tail;
      StringValuesOfEnum(codes[1..], namespaceMembers);
    }
  }

  lemma {:induction false} NoStrings(members: seq<Member>)
    requires forall i :: 0 <= i < |members| ==> members[i] == NonString
    ensures StringValues(members) == []
  {
    if members != [] {
      NoStrings(members[1..]);
    }
  }

  /** `descriptions[code] || code`: a missing or empty description falls back
      to the code. */
  function DescriptionOr(descriptions: map<string, string>, code: string): (r: string)
    ensures code in descriptions && descriptions[code] != "" ==> r == descriptions[code]
    ensures code !in descriptions || descriptions[code] == "" ==> r == code
  {
    if code in descriptions && descriptions[code] != "" then descriptions[code] else code
  }

  /** `descriptions[code]` with no fallback: `undefined` for an unknown code. */
  function DescriptionOf(descriptions: map<string, string>, code: string): (r: Option<string>)
    ensures r.Some? <==> code in descriptions
    ensures r.Some? ==> r.value == descriptions[code]
  {
    if code in descriptions then Some(descriptions[code]) else None
  }

  /** An entry of `entries()`. */
  datatype Entry = Entry(code: string, description: Option<string>)

  /** `entries()` with the fallback to the code. */
  function EntriesOr(codes: seq<string>, descriptions: map<string, string>): (r: seq<Entry>)
    ensures |r| == |codes|
    ensures forall i :: 0 <= i < |r| ==> r[i] == Entry(codes[i], Some(DescriptionOr(descriptions, codes[i])))
  {
    if codes == [] then []
    else [Entry(codes[0], Some(DescriptionOr(descriptions, codes[0])))] + EntriesOr(codes[1..], descriptions)
  }

  /** `entries()` without a fallback: an undescribed code gets `undefined`. */
  function EntriesOf(codes: seq<string>, descriptions: map<string, string>): (r: seq<Entry>)
    ensures |r| == |codes|
    ensures forall i :: 0 <= i < |r| ==> r[i] == Entry(codes[i], DescriptionOf(descriptions, codes[i]))
  {
    if codes == [] then []
    else [Entry(codes[0], DescriptionOf(descriptions, codes[0]))] + EntriesOf(codes[1..], descriptions)
  }

  /** When every code is described by a non-empty text, the two kinds of
      entries agree. */
  lemma EntriesAgree(codes: seq<string>, descriptions: map<string, string>)
    requires forall i :: 0 <= i < |codes| ==> codes[i] in descriptions && descriptions[codes[i]] != ""
    ensures EntriesOr(codes, descriptions) == EntriesOf(codes, descriptions)
  {
  }

  /** The entries of an enum whose every code is described by a non-empty
      text: the codes in order, each with its description, whether or not
      the lookup falls back to the code. */
  lemma EnumEntries(codes: seq<string>, namespaceMembers: nat, descriptions: map<string, string>)
    requires forall i :: 0 <= i < |codes| ==> codes[i] in descriptions && descriptions[codes[i]] != ""
    ensures EntriesOr(StringValues(EnumObject(codes, namespaceMembers)), descriptions) == EntriesOf(codes, descriptions)
  {
    StringValuesOfEnum(codes, namespaceMembers);
    EntriesAgree(codes, descriptions);
  }

  /** No code is listed twice. */
  predicate Distinct(codes: seq<string>)
  {
    forall i, j :: 0 <= i < j < |codes| ==> codes[i] != codes[j]
  }
}
