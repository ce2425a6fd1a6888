/** The owner stamp in a key's display name: rotation_display_name writes it,
    instance_id_of reads it back, and MAIL_INSTANCE_ID is normalised for it. */
module OwnerStamp {
  import opened Common
  import opened Thumbprint

  const LONGEST := 128

  predicate InIdCharset(c: char) {
    'A' <= c <= 'Z' || 'a' <= c <= 'z' || '0' <= c <= '9' || c == '.' || c == '_' || c == '-'
  }

  predicate IsId(s: string) {
    forall i | 0 <= i < |s| :: InIdCharset(s[i])
  }

  /** Everything outside the stamp's charset becomes a dash. */
  function Dashed(s: string): (r: string)
    ensures |r| == |s| && IsId(r)
    ensures IsId(s) ==> r == s
  {
    if s == "" then "" else [if InIdCharset(s[0]) then s[0] else '-'] + Dashed(s[1..])
  }

  /** The instance id taken from an operator's MAIL_INSTANCE_ID. */
  function Normalise(value: string): (id: string)
    ensures IsId(id)
  {
    Dashed(Strip(value))
  }

  const LEAD := "postfix-m365-relay mail relay"
  const TAG := "inst:"

  function DisplayName(id: string, day: string): string {
    LEAD + (if id != "" then " " + TAG + id else "") + " (rotated " + day + ")"
  }

  /** The longest run of id characters at the front, of at most n. */
  function IdRun(s: string, n: nat): (r: string)
    ensures IsId(r) && |r| <= n
  {
    if n == 0 || s == "" || !InIdCharset(s[0]) then "" else [s[0]] + IdRun(s[1..], n - 1)
  }

  /** Whether `inst:` and at least one id character stand at the front. */
  predicate TagHere(s: string) {
    |s| > 5 && s[..5] == TAG && InIdCharset(s[5])
  }

  /** The first match of inst:([A-Za-z0-9._-]{1,128}), or the empty string. */
  function ReadStamp(name: string): (id: string)
    ensures IsId(id) && |id| <= LONGEST
  {
    if name == "" then ""
    else if TagHere(name) then IdRun(name[5..], LONGEST)
    else ReadStamp(name[1..])
  }

  predicate IsIsoDay(day: string) {
    |day| == 10 && forall i | 0 <= i < 10 :: '0' <= day[i] <= '9' || day[i] == '-'
  }

  // -------------------------------------------------------------------- theorems

  /** The characters of an id, one by one, and how many are read back. */
  lemma IdCharset(c: char)
    ensures InIdCharset(c) <==> c in UPPER_CASE || c in LOWER_CASE || c in NUMERALS || c in "._-"
    ensures LONGEST == 128
  {
    Rows();
    InRow(UPPER_CASE, 'A', c);
    InRow(LOWER_CASE, 'a', c);
    InRow(NUMERALS, '0', c);
    assert c in "._-" <==> c == "._-"[0] || c == "._-"[1] || c == "._-"[2];
  }

  lemma {:induction false} DashedAt(s: string, i: nat)
    requires i < |s|
    ensures Dashed(s)[i] == if InIdCharset(s[i]) then s[i] else '-'
    decreases |s|
  {
    if i > 0 {
      DashedAt(s[1..], i - 1);
    }
  }

  lemma StampSays(id: string, day: string)
    ensures id != "" ==>
              DisplayName(id, day) == "postfix-m365-relay mail relay" + " inst:" + id + " (rotated " + day + ")"
    ensures DisplayName("", day) == "postfix-m365-relay mail relay" + " (rotated " + day + ")"
  {
    if id != "" {
      assert " " + TAG + id == " inst:" + id;
    }
  }

  lemma TagLetters(s: string)
    requires TagHere(s)
    ensures s[0] == 'i' && s[1] == 'n'
  {
    assert s[..5][0] == 'i' && s[..5][1] == 'n';
  }

  /** No tag starts in a text without the letter n, unless its last letter begins one. */
  lemma {:induction false} SkipLead(lead: string, rest: string)
    requires 'n' !in lead && (lead != "" ==> lead[|lead| - 1] != 'i')
    ensures ReadStamp(lead + rest) == ReadStamp(rest)
    decreases |lead|
  {
    if lead == "" {
      assert lead + rest == rest;
    } else {
      var s := lead + rest;
      if TagHere(s) {
        TagLetters(s);
        assert false;
      }
      assert s[1..] == lead[1..] + rest;
      SkipLead(lead[1..], rest);
    }
  }

  lemma {:induction false} IdRunStops(id: string, rest: string, n: nat)
    requires IsId(id) && (rest == "" || !InIdCharset(rest[0]))
    ensures IdRun(id + rest, n) == id[..if |id| <= n then |id| else n]
    decreases |id|
  {
    if id == "" {
      assert id + rest == rest;
    } else if n > 0 {
      assert (id + rest)[1..] == id[1..] + rest;
      IdRunStops(id[1..], rest, n - 1);
    }
  }

  lemma TagStands(rest: string)
    requires rest != "" && InIdCharset(rest[0])
    ensures TagHere(TAG + rest) && (TAG + rest)[5..] == rest
  {
    assert (TAG + rest)[..5] == TAG;
  }

  lemma ReadsStamped(lead: string, id: string, tail: string)
    requires 'n' !in lead && (lead != "" ==> lead[|lead| - 1] != 'i')
    requires IsId(id) && id != "" && (tail == "" || !InIdCharset(tail[0]))
    ensures ReadStamp(lead + (TAG + (id + tail))) == id[..if |id| <= LONGEST then |id| else LONGEST]
  {
    TagStands(id + tail);
    SkipLead(lead, TAG + (id + tail));
    IdRunStops(id, tail, LONGEST);
  }

  /** What is read back is the id, cut at 128 characters; nothing else in the name,
      and no date, matters. */
  lemma ReadBack(id: string, day: string)
    requires IsId(id) && (id == "" ==> IsIsoDay(day))
    ensures ReadStamp(DisplayName(id, day)) == id[..if |id| <= LONGEST then |id| else LONGEST]
  {
    var tail := " (rotated " + day + ")";
    if id == "" {
      assert DisplayName(id, day) == (LEAD + tail) + "";
      SkipLead(LEAD + tail, "");
    } else {
      assert DisplayName(id, day) == (LEAD + " ") + (TAG + (id + tail));
      ReadsStamped(LEAD + " ", id, tail);
    }
  }

  /** A stamp names its writer exactly when the id has at most 128 characters: a
      longer one is cut, and the instance no longer knows its own key. */
  lemma KnowsItsOwn(value: string, day: string)
    requires IsIsoDay(day)
    ensures ReadStamp(DisplayName(Normalise(value), day)) == Normalise(value) <==> |Normalise(value)| <= LONGEST
  {
    ReadBack(Normalise(value), day);
  }

  /** Two instances read the same owner from their stamps exactly when their ids
      agree on the first 128 characters. */
  lemma ReadAlike(a: string, dayA: string, b: string, dayB: string)
    requires IsId(a) && IsId(b) && a != "" && b != ""
    ensures ReadStamp(DisplayName(a, dayA)) == ReadStamp(DisplayName(b, dayB)) <==>
            a[..if |a| <= LONGEST then |a| else LONGEST] == b[..if |b| <= LONGEST then |b| else LONGEST]
  {
    ReadBack(a, dayA);
    ReadBack(b, dayB);
  }
}
