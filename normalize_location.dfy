/** Turning a reverse-geocoding answer into a short place name: only the first feature is
    read, only places in Cundinamarca are accepted, and the name is the most specific one
    available (neighbourhood, then locality, then street address, then city, then the
    feature's own text). The request itself is left out; its parsed answer is the input. */
module NormalizeLocation {
  import opened Common

  /** An entry of a feature's context: its `id` names its kind (`"region.123"`). */
  datatype Entry = Entry(id: string, text: string)

  datatype Feature = Feature(text: string, placeType: seq<string>, context: Option<seq<Entry>>)

  /** `s.includes(sub)` on strings. */
  function Contains(s: string, sub: string): bool
    decreases |s|
  {
    if |sub| > |s| then false
    else if sub <= s then true
    else Contains(s[1..], sub)
  }

  /** `sub` occurs in `s` starting at position `i`. */
  predicate OccursAt(s: string, sub: string, i: int) {
    0 <= i <= |s| - |sub| && s[i..i + |sub|] == sub
  }

  /** `Contains` finds `sub` at some position of `s`, and only then. */
  lemma {:induction false} ContainsMeaning(s: string, sub: string)
    ensures Contains(s, sub) <==> exists i :: OccursAt(s, sub, i)
    decreases |s|
  {
    if |sub| > |s| {
    } else if sub <= s {
      assert OccursAt(s, sub, 0);
    } else {
      ContainsMeaning(s[1..], sub);
      if exists i :: OccursAt(s, sub, i) {
        var i :| OccursAt(s, sub, i);
        if i == 0 {
          assert false;
        }
        assert OccursAt(s[1..], sub, i - 1);
      }
      if Contains(s[1..], sub) {
        var i :| OccursAt(s[1..], sub, i);
        assert OccursAt(s, sub, i + 1);
      }
    }
  }

  /** `ctx.find((c) => c.id.includes(keyword))`, as the position of the first such entry. */
  function Find(ctx: seq<Entry>, keyword: string): (r: Option<nat>)
    ensures r.Some? ==> r.value < |ctx| && Contains(ctx[r.value].id, keyword)
    ensures r.Some? ==> forall j :: 0 <= j < r.value ==> !Contains(ctx[j].id, keyword)
    ensures r.None? ==> forall j :: 0 <= j < |ctx| ==> !Contains(ctx[j].id, keyword)
    decreases |ctx|
  {
    if ctx == [] then None
    else if Contains(ctx[0].id, keyword) then Some(0)
    else match Find(ctx[1..], keyword)
      case None => None
      case Some(i) => Some(i + 1)
  }

  /** The text of the first entry of kind `keyword`, if there is one. */
  function TextOf(ctx: seq<Entry>, keyword: string): (t: Option<string>)
    ensures t.Some? <==> exists j :: 0 <= j < |ctx| && Contains(ctx[j].id, keyword)
  {
    match Find(ctx, keyword)
    case None => None
    case Some(i) => Some(ctx[i].text)
  }

  /** The first entry of a kind is the one `TextOf` reads. */
  lemma TextOfFirst(ctx: seq<Entry>, keyword: string, j: nat)
    requires j < |ctx| && Contains(ctx[j].id, keyword)
    requires forall i :: 0 <= i < j ==> !Contains(ctx[i].id, keyword)
    ensures TextOf(ctx, keyword) == Some(ctx[j].text)
  {
    var r := Find(ctx, keyword);
    assert r.Some?;
  }

  /** `f.context || []` */
  function ContextOf(f: Feature): seq<Entry> {
    if f.context.Some? then f.context.value else []
  }

  const Region := "Cundinamarca"

  /** The first feature is inside Cundinamarca: its first region entry is named so. */
  predicate InRegion(f: Feature) {
    TextOf(ContextOf(f), "region") == Some(Region)
  }

  /** The place name for an answer whose `features` may be missing. `None` is `null`. */
  function Normalize(features: Option<seq<Feature>>): (r: Option<string>)
    ensures features.None? || features.value == [] ==> r.None?
    ensures r.Some? ==> features.Some? && features.value != [] && InRegion(features.value[0])
    ensures r.Some? ==> r.value == features.value[0].text ||
                        exists e :: e in ContextOf(features.value[0]) && r.value == e.text
  {
    if features.None? || features.value == [] then None
    else
      var f := features.value[0];
      var ctx := ContextOf(f);
      if TextOf(ctx, "region") != Some(Region) then None
      else if TextOf(ctx, "neighborhood").Some? then TextOf(ctx, "neighborhood")
      else if TextOf(ctx, "locality").Some? then TextOf(ctx, "locality")
      else if "address" in f.placeType then Some(f.text)
      else if TextOf(ctx, "place").Some? then TextOf(ctx, "place")
      else Some(f.text)
  }

  /** Every answer with a first feature in Cundinamarca yields a name: `null` means no
      feature or a place outside the region. */
  lemma NormalizeDefinedInRegion(features: Option<seq<Feature>>)
    ensures Normalize(features).Some? <==>
              features.Some? && features.value != [] && InRegion(features.value[0])
  {
  }

  /** Only the first feature is read. */
  lemma OnlyFirstFeature(f: Feature, rest: seq<Feature>)
    ensures Normalize(Some([f] + rest)) == Normalize(Some([f]))
  {
    assert ([f] + rest)[0] == f;
  }

  /** In the region, the first neighbourhood entry wins over everything else. */
  lemma NeighbourhoodFirst(f: Feature, j: nat)
    requires InRegion(f)
    requires j < |ContextOf(f)| && Contains(ContextOf(f)[j].id, "neighborhood")
    requires forall i :: 0 <= i < j ==> !Contains(ContextOf(f)[i].id, "neighborhood")
    ensures Normalize(Some([f])) == Some(ContextOf(f)[j].text)
  {
    TextOfFirst(ContextOf(f), "neighborhood", j);
  }

  /** In the region and without neighbourhood entries, the first locality entry wins. */
  lemma LocalitySecond(f: Feature, j: nat)
    requires InRegion(f)
    requires forall i :: 0 <= i < |ContextOf(f)| ==> !Contains(ContextOf(f)[i].id, "neighborhood")
    requires j < |ContextOf(f)| && Contains(ContextOf(f)[j].id, "locality")
    requires forall i :: 0 <= i < j ==> !Contains(ContextOf(f)[i].id, "locality")
    ensures Normalize(Some([f])) == Some(ContextOf(f)[j].text)
  {
    TextOfFirst(ContextOf(f), "locality", j);
  }

  /** In the region, with neither neighbourhood nor locality entries, a street address is
      named by the feature's own text even when a city entry exists; otherwise the city
      entry names it, and the feature's text is the last resort. */
  lemma AddressBeforeCity(f: Feature)
    requires InRegion(f)
    requires forall i :: 0 <= i < |ContextOf(f)| ==> !Contains(ContextOf(f)[i].id, "neighborhood")
    requires forall i :: 0 <= i < |ContextOf(f)| ==> !Contains(ContextOf(f)[i].id, "locality")
    ensures "address" in f.placeType ==> Normalize(Some([f])) == Some(f.text)
    ensures "address" !in f.placeType ==>
              Normalize(Some([f])) == Some(OrElseText(TextOf(ContextOf(f), "place"), f.text))
  {
  }

  function OrElseText(t: Option<string>, fallback: string): string {
    if t.Some? then t.value else fallback
  }
}
