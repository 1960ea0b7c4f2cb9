/**
 * The custom-gradient library kept by the page component (src/app/page.tsx).
 *
 * The page holds an ordered list of CSS background strings, most recent first,
 * and the currently selected background.  Adding prepends and keeps at most
 * twelve entries; deleting filters one position out.  Both write the whole list
 * to browser storage under one key, and the list is read back once at start-up.
 */
module GradientLibrary {
  import opened Options
  import GradientBuilder

  /** At most this many entries survive an add (page.tsx:38). */
  const MaxCustom: nat := 12

  /** The page's initial background (page.tsx:15). */
  const DefaultBackground: string :=
    "radial-gradient(at 0% 0%, hsla(253,16%,7%,1) 0, transparent 50%), radial-gradient(at 50% 0%, hsla(225,39%,30%,1) 0, transparent 50%), radial-gradient(at 100% 0%, hsla(339,49%,30%,1) 0, transparent 50%)"

  function Min(a: nat, b: nat): nat { if a <= b then a else b }

  /** `Array.prototype.slice(0, n)`: the first `n` entries, or all of them. */
  function Take(s: seq<string>, n: nat): (r: seq<string>)
    ensures |r| == Min(|s|, n)
    ensures forall k :: 0 <= k < |r| ==> r[k] == s[k]
  {
    if |s| <= n then s else s[..n]
  }

  /** The list `handleAddGradient` builds: `[gradient, ...list].slice(0, 12)`. */
  function WithAdded(list: seq<string>, g: string): (r: seq<string>)
    ensures |r| == Min(|list| + 1, MaxCustom)
    ensures r[0] == g
    ensures forall k :: 1 <= k < |r| ==> r[k] == list[k - 1]
  {
    Take([g] + list, MaxCustom)
  }

  /** The list `handleDeleteGradient` builds: `list.filter((_, i) => i !== index)`.
      The filter walks the list keeping every position other than `index`. */
  function WithoutIndex(list: seq<string>, index: int): (r: seq<string>)
    ensures 0 <= index < |list| ==> r == list[..index] + list[index + 1..]
    ensures !(0 <= index < |list|) ==> r == list
    decreases |list|
  {
    if list == [] then []
    else (if index == 0 then [] else [list[0]]) + WithoutIndex(list[1..], index - 1)
  }

  /** Adding keeps the new entry first and the older entries, in order, after it,
      dropping only what falls past the twelfth place. */
  lemma AddShape(list: seq<string>, g: string)
    ensures WithAdded(list, g) == [g] + list[..Min(|list|, MaxCustom - 1)]
  {
  }

  /** Adding to a full library keeps twelve entries and evicts the old last one. */
  lemma AddToFull(list: seq<string>, g: string)
    requires |list| == MaxCustom
    ensures |WithAdded(list, g)| == MaxCustom
    ensures WithAdded(list, g) == [g] + list[..MaxCustom - 1]
    ensures multiset(WithAdded(list, g)) == multiset(list) - multiset{list[MaxCustom - 1]} + multiset{g}
  {
    AddShape(list, g);
    assert list == list[..MaxCustom - 1] + [list[MaxCustom - 1]];
    assert multiset(list) == multiset(list[..MaxCustom - 1]) + multiset{list[MaxCustom - 1]};
  }

  /** Below the cap nothing is lost: the new list holds the old entries plus `g`. */
  lemma AddBelowCap(list: seq<string>, g: string)
    requires |list| < MaxCustom
    ensures WithAdded(list, g) == [g] + list
    ensures multiset(WithAdded(list, g)) == multiset(list) + multiset{g}
  {
  }

  /** Add does not deduplicate: re-adding an entry that survives the cut leaves two copies. */
  lemma AddKeepsDuplicates(list: seq<string>, g: string, j: nat)
    requires j < |list| && j < MaxCustom - 1 && list[j] == g
    ensures WithAdded(list, g)[0] == g && WithAdded(list, g)[j + 1] == g
    ensures multiset(WithAdded(list, g))[g] >= 2
  {
    var r := WithAdded(list, g);
    assert r[j + 1] == list[j];
    assert r == r[..1] + r[1..j + 1] + [r[j + 1]] + r[j + 2..];
    assert r[..1] == [g];
    assert multiset(r)[g] >= multiset(r[..1])[g] + multiset([r[j + 1]])[g];
  }

  /** Deleting a valid position drops exactly that entry and keeps the others in order. */
  lemma DeleteInRange(list: seq<string>, i: nat)
    requires i < |list|
    ensures |WithoutIndex(list, i)| == |list| - 1
    ensures forall k :: 0 <= k < i ==> WithoutIndex(list, i)[k] == list[k]
    ensures forall k :: i <= k < |list| - 1 ==> WithoutIndex(list, i)[k] == list[k + 1]
  {
  }

  /** The deleted entry is the only one that goes: one copy of it leaves the multiset. */
  lemma DeleteRemovesOne(list: seq<string>, i: nat)
    requires i < |list|
    ensures multiset(WithoutIndex(list, i)) == multiset(list) - multiset{list[i]}
  {
    RemoveAtMultiset(list, i);
  }

  lemma RemoveAtMultiset<T>(s: seq<T>, i: nat)
    requires i < |s|
    ensures multiset(s[..i] + s[i + 1..]) == multiset(s) - multiset{s[i]}
  {
    assert s == s[..i] + [s[i]] + s[i + 1..];
  }

  /** What `localStorage.getItem("custom_gradients")` returns: null or a string. */
  datatype Item = Absent | Text(raw: string)

  /** `JSON.stringify` and `JSON.parse` on the stored list; a parse that throws is `None`. */
  datatype Json = Json(stringify: seq<string> -> string, parse: string -> Option<seq<string>>)

  /** JSON's guarantee for arrays of strings: what is written parses back to itself,
      and the written text is never the empty (falsy) string. */
  ghost predicate RoundTrips(json: Json)
  {
    forall l :: json.stringify(l) != "" && json.parse(json.stringify(l)) == Some(l)
  }

  /** The start-up effect's decision (page.tsx:26-35): `Some(list)` when a non-empty
      stored text parses, else `None`, in which case the list is left as it was. */
  function Loaded(saved: Item, json: Json): (r: Option<seq<string>>)
    ensures r.Some? <==> saved.Text? && saved.raw != "" && json.parse(saved.raw).Some?
    ensures r.Some? ==> r == json.parse(saved.raw)
  {
    match saved
    case Absent => None
    case Text(raw) => if raw == "" then None else json.parse(raw)
  }

  /** What is written is what is read back at the next start-up, in the same order
      and with no truncation, however long the list. */
  lemma PersistThenReload(json: Json, list: seq<string>)
    requires RoundTrips(json)
    ensures Loaded(Text(json.stringify(list)), json) == Some(list)
  {
  }

  /** The page state behind the library: the list, the selected background and the
      storage slot that stands in for `localStorage["custom_gradients"]`. */
  class Library {
    const json: Json
    var customGradients: seq<string>
    var background: string
    var stored: Item

    /** Initial render (page.tsx:15, 17): empty list, default background. */
    constructor (json: Json, saved: Item)
      ensures this.json == json && stored == saved
      ensures customGradients == [] && background == DefaultBackground
    {
      this.json := json;
      customGradients := [];
      background := DefaultBackground;
      stored := saved;
    }

    /** The mount effect (page.tsx:26-35): a present, parseable value replaces the list as is;
        a missing, empty or unparseable one leaves it alone. */
    method LoadSaved()
      modifies this
      ensures stored == old(stored) && background == old(background)
      ensures customGradients == match Loaded(old(stored), json)
                                 case Some(l) => l
                                 case None => old(customGradients)
    {
      var saved := stored;
      if saved.Text? && saved.raw != "" {
        var parsed := json.parse(saved.raw);
        if parsed.Some? {
          customGradients := parsed.value;
        }
      }
    }

    /** `handleAddGradient` (page.tsx:37-42). */
    method Add(gradient: string)
      modifies this
      ensures customGradients == WithAdded(old(customGradients), gradient)
      ensures stored == Text(json.stringify(customGradients))
      ensures background == gradient
    {
      var updated := WithAdded(customGradients, gradient);
      customGradients := updated;
      stored := Text(json.stringify(updated));
      background := gradient;
    }

    /** `handleDeleteGradient` (page.tsx:44-48); the selected background is left as it was,
        even when it was the entry removed. */
    method Delete(index: int)
      modifies this
      ensures customGradients == WithoutIndex(old(customGradients), index)
      ensures stored == Text(json.stringify(customGradients))
      ensures background == old(background)
    {
      var updated := WithoutIndex(customGradients, index);
      customGradients := updated;
      stored := Text(json.stringify(updated));
    }

    /** The builder's add button (GradientBuilder.tsx:75, wired as `onAddGradient`):
        the string stored and selected is the one the builder previews. */
    method AddFromBuilder(b: GradientBuilder.Builder)
      modifies this
      ensures customGradients == WithAdded(old(customGradients), GradientBuilder.Generate(b))
      ensures customGradients[0] == background == GradientBuilder.Generate(b)
      ensures stored == Text(json.stringify(customGradients))
    {
      Add(GradientBuilder.Generate(b));
    }
  }

  /** First render followed by the mount effect. */
  method Startup(json: Json, saved: Item) returns (lib: Library)
    ensures fresh(lib) && lib.json == json && lib.stored == saved
    ensures lib.background == DefaultBackground
    ensures lib.customGradients == match Loaded(saved, json)
                                   case Some(l) => l
                                   case None => []
  {
    lib := new Library(json, saved);
    lib.LoadSaved();
  }

  /** A session: add, then reload in a fresh page; the reloaded library is the one written. */
  method AddThenReload(json: Json, saved: Item, g: string) returns (before: Library, after: Library)
    requires RoundTrips(json)
    ensures after.customGradients == before.customGradients
    ensures 0 < |after.customGradients| <= MaxCustom && after.customGradients[0] == g
  {
    before := Startup(json, saved);
    before.Add(g);
    PersistThenReload(json, before.customGradients);
    after := Startup(json, before.stored);
  }
}
