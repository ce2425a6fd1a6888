/** classify_credential on the strings the directory returns, and its agreement
    with the classification RelayWorld is stated in. */
module Ownership {
  import opened Common
  import opened Thumbprint
  import opened OwnerStamp
  import W = RelayWorld

  /** A keyCredential as Graph lists it. */
  datatype Listed = Listed(keyId: string, identifier: string, displayName: string)

  function Classify(c: Listed, liveThumbprint: string, myId: string, retiring: string): W.Ownership {
    if Thumbprint.Of(c.identifier) == liveThumbprint && liveThumbprint != "" then W.OwnLive
    else if retiring != "" && c.keyId == retiring then W.OwnRetiring
    else
      var stamped := ReadStamp(c.displayName);
      if stamped != "" && myId != "" then
        if stamped == myId then W.OwnSuperseded else W.OwnForeign
      else W.OwnUnmonitored
  }

  /** A usable instance id. */
  predicate Usable(id: string) {
    IsId(id) && 1 <= |id| <= LONGEST
  }

  /** `c` is listed as `l`: some spelling of its thumbprint, and its owner's stamp
      with any date, or no stamp at all. */
  predicate ListedAs(c: W.Credential, l: Listed, digest: W.Gen -> Digest, id: W.Inst -> string, form: Form,
                     day: string) {
    && Fits(form) && l.identifier == Spell(digest(c.thumb), form)
    && match c.owner
       case Some(o) => l.displayName == DisplayName(id(o), day)
       case None => ReadStamp(l.displayName) == ""
  }

  /** The first n certificates have distinct digests. */
  predicate DistinctDigests(digest: W.Gen -> Digest, n: nat) {
    forall g, h | 0 <= g < n && 0 <= h < n :: digest(g) == digest(h) ==> g == h
  }

  /** The instances of a registration have usable and distinct ids. */
  predicate DistinctIds(id: W.Inst -> string, insts: set<W.Inst>) {
    && (forall i | i in insts :: Usable(id(i)))
    && (forall i, j | i in insts && j in insts :: id(i) == id(j) ==> i == j)
  }

  /** The strings say what the abstract credential says: with distinct digests and
      distinct usable ids, the class is the same whatever spelling and date were used. */
  lemma StringsAgree(c: W.Credential, l: Listed, digest: W.Gen -> Digest, id: W.Inst -> string, form: Form, day: string,
                     n: nat, insts: set<W.Inst>,
                     live: Option<W.Gen>, me: W.Inst, named: bool, retiring: string)
    requires ListedAs(c, l, digest, id, form, day)
    requires DistinctDigests(digest, n) && c.thumb < n && (live.Some? ==> live.value < n)
    requires DistinctIds(id, insts) && me in insts && (c.owner.Some? ==> c.owner.value in insts)
    ensures Classify(l, if live.Some? then HexUpper(digest(live.value)) else "", if named then id(me) else "",
                     retiring) ==
            W.Classify(c, live, me, named, retiring != "" && l.keyId == retiring)
  {
    SpellingDoesNotMatter(digest(c.thumb), form);
    if live.Some? {
      SpellingDoesNotMatter(digest(live.value), Base64Text);
      NeverConfused(digest(c.thumb), form, digest(live.value), Base64Text);
    }
    if c.owner.Some? {
      ReadBack(id(c.owner.value), day);
    }
  }

  /** What the length limit costs: a key an instance stamped itself counts as another
      instance's exactly when its id is longer than 128 characters. */
  lemma OwnKeyLooksForeign(l: Listed, value: string, day: string, liveThumbprint: string, retiring: string)
    requires IsIsoDay(day) && Normalise(value) != ""
    requires l.displayName == DisplayName(Normalise(value), day)
    requires Thumbprint.Of(l.identifier) != liveThumbprint || liveThumbprint == ""
    requires retiring == "" || l.keyId != retiring
    ensures Classify(l, liveThumbprint, Normalise(value), retiring) == W.OwnForeign <==> |Normalise(value)| > LONGEST
    ensures Classify(l, liveThumbprint, Normalise(value), retiring) == W.OwnSuperseded <==>
            |Normalise(value)| <= LONGEST
  {
    ReadBack(Normalise(value), day);
  }

  /** What is read back of an id. */
  function Cut(id: string): string {
    id[..if |id| <= LONGEST then |id| else LONGEST]
  }

  /** A sibling's stamped key, neither live nor retiring here, counts as this
      instance's own superseded key -- the class a hand removal needs no flag for --
      exactly when this id is the first 128 characters of that one. */
  lemma TakenForOwn(l: Listed, mine: string, theirs: string, day: string, liveThumbprint: string, retiring: string)
    requires IsId(mine) && mine != "" && IsId(theirs) && theirs != ""
    requires l.displayName == DisplayName(theirs, day)
    requires Thumbprint.Of(l.identifier) != liveThumbprint || liveThumbprint == ""
    requires retiring == "" || l.keyId != retiring
    ensures Classify(l, liveThumbprint, mine, retiring) == W.OwnSuperseded <==> mine == Cut(theirs)
    ensures W.Permitted(Classify(l, liveThumbprint, mine, retiring), false, false) <==> mine == Cut(theirs)
  {
    ReadBack(theirs, day);
  }

  /** Instances with these operator values can share a registration: no two read
      each other's stamp as their own. */
  predicate Shareable(values: seq<string>) {
    forall i, j | 0 <= i < |values| && 0 <= j < |values| && i != j ::
      Normalise(values[i]) != Cut(Normalise(values[j]))
  }

  /** For ids of at most 128 characters that is: the normalised ids are distinct. */
  lemma ShortIdsShareable(values: seq<string>)
    requires forall i | 0 <= i < |values| :: |Normalise(values[i])| <= LONGEST
    ensures Shareable(values) <==>
            forall i, j | 0 <= i < j < |values| :: Normalise(values[i]) != Normalise(values[j])
  {
    forall i | 0 <= i < |values| ensures Cut(Normalise(values[i])) == Normalise(values[i]) { }
  }

  /** Different settings that are one id: a stray character becomes a dash. */
  lemma SettingsCollide()
    ensures "a b" != "a-b" && Normalise("a b") == Normalise("a-b") == "a-b"
    ensures !Shareable(["a b"] + ["a-b"])
  {
    NormalisesPlain("a b");
    NormalisesPlain("a-b");
    var values := ["a b"] + ["a-b"];
    assert Dashed("b") == "b" && "a b"[1..] == " b" && " b"[1..] == "b";
    assert Dashed(" b") == ['-'] + "b";
    assert Normalise(values[0]) == Cut(Normalise(values[1]));
  }

  lemma NormalisesPlain(s: string)
    requires s != "" && !IsSpace(s[0]) && !IsSpace(s[|s| - 1])
    ensures Normalise(s) == Dashed(s)
  {
  }
}
