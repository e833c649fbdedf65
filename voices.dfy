/** The voice board of the example application (app/v1/voice.py): a list of
    posted voices, a cursor-based page over the public ones, and owner-checked
    reading, editing and deletion by URL number. Errors are the application's
    exception instances. */
module Voices {
  import opened Common
  import opened Exceptions

  /** One stored voice: its text, its privacy flag (an int, truthy when
      non-zero), the posting time as text, the poster's name and the number it
      was given. */
  datatype Voice = Voice(text: string, private: int, date: string, uname: string, vid: int)

  /** The word whose presence refuses a post. */
  const ForbiddenWord := "敏感词汇"

  predicate IsPublic(v: Voice)
  {
    v.private == 0
  }

  // ---- Python list primitives ---------------------------------------------

  /** The position `xs[i]` reads in a list of length `n`, negative indices
      counting from the end; None where Python raises IndexError. */
  function PyIndex(n: nat, i: int): (r: Option<nat>)
    ensures r.Some? <==> -(n as int) <= i < n
    ensures r.Some? ==> r.value < n && (r.value == i || r.value == n + i)
  {
    if 0 <= i < n then Some(i) else if -(n as int) <= i < 0 then Some(n + i) else None
  }

  /** `xs[lo:hi]` for non-negative bounds: both are clamped to the length, and
      a start past the end gives an empty list. */
  function PySlice<T>(xs: seq<T>, lo: nat, hi: nat): (r: seq<T>)
    ensures lo <= hi <= |xs| ==> r == xs[lo..hi]
    ensures lo <= |xs| <= hi ==> r == xs[lo..]
    ensures hi <= lo || |xs| <= lo ==> r == []
    ensures |r| <= if hi <= lo then 0 else hi - lo
  {
    var a := if lo < |xs| then lo else |xs|;
    var b := if hi < |xs| then hi else |xs|;
    if a <= b then xs[a..b] else []
  }

  /** `[v for v in vs if not v['private']]`. */
  function Public(vs: seq<Voice>): (r: seq<Voice>)
    ensures |r| <= |vs|
    ensures forall i :: 0 <= i < |r| ==> IsPublic(r[i])
    decreases |vs|
  {
    if vs == [] then []
    else (if IsPublic(vs[0]) then [vs[0]] else []) + Public(vs[1..])
  }

  /** The filter keeps exactly the public voices: a voice is in the result
      if and only if it is in the input and public. */
  lemma {:induction false} PublicMembers(vs: seq<Voice>)
    ensures forall v :: v in Public(vs) <==> v in vs && IsPublic(v)
    decreases |vs|
  {
    if vs != [] {
      PublicMembers(vs[1..]);
      assert vs == [vs[0]] + vs[1..];
    }
  }

  /** A list without private voices passes the filter unchanged. */
  lemma {:induction false} PublicOfAllPublic(vs: seq<Voice>)
    requires forall i :: 0 <= i < |vs| ==> IsPublic(vs[i])
    ensures Public(vs) == vs
    decreases |vs|
  {
    if vs != [] {
      PublicOfAllPublic(vs[1..]);
      assert vs == [vs[0]] + vs[1..];
    }
  }

  /** `xs[::-1]`. */
  function Reverse<T>(xs: seq<T>): (r: seq<T>)
    ensures |r| == |xs|
    ensures forall i :: 0 <= i < |xs| ==> r[i] == xs[|xs| - 1 - i]
    decreases |xs|
  {
    if xs == [] then [] else Reverse(xs[1..]) + [xs[0]]
  }

  /** One step of the filter: the head, if public, then the filtered tail. */
  lemma PublicCons(x: Voice, s: seq<Voice>)
    ensures Public([x] + s) == (if IsPublic(x) then [x] else []) + Public(s)
  {
    assert ([x] + s)[1..] == s;
  }

  /** Filtering distributes over concatenation. */
  lemma {:induction false} PublicAppend(a: seq<Voice>, b: seq<Voice>)
    ensures Public(a + b) == Public(a) + Public(b)
    decreases |a|
  {
    if a == [] {
      assert a + b == b;
    } else {
      var x, t := a[0], a[1..];
      assert a == [x] + t;
      assert a + b == [x] + (t + b);
      PublicCons(x, t + b);
      PublicCons(x, t);
      PublicAppend(t, b);
    }
  }

  /** Reversing a concatenation reverses the order of the parts. */
  lemma ReverseAppend<T>(a: seq<T>, b: seq<T>)
    ensures Reverse(a + b) == Reverse(b) + Reverse(a)
  {
    var l := Reverse(a + b);
    var r := Reverse(b) + Reverse(a);
    assert |l| == |r|;
    forall i | 0 <= i < |l| ensures l[i] == r[i] {
      if i < |b| {
        assert l[i] == (a + b)[|a| + |b| - 1 - i] == b[|b| - 1 - i];
      } else {
        assert l[i] == (a + b)[|a| + |b| - 1 - i] == a[|a| - 1 - (i - |b|)];
      }
    }
  }

  // ---- VoiceList.get: pagination --------------------------------------------

  /** The clamped end cursor: one past the end gives the last voice, a
      negative number the first, anything else the voice before it (so 0 gives
      -1, an empty window). */
  function Cursor(n: nat, vid: int): (r: int)
    ensures -1 <= r
    ensures r < n || (n == 0 && r == 0 && vid < 0)
    ensures 1 <= vid <= n ==> r == vid - 1
    ensures vid > n ==> r == n - 1
    ensures vid < 0 ==> r == 0
    ensures vid == 0 ==> r == -1
  {
    if vid > n then n - 1 else if vid < 0 then 0 else vid - 1
  }

  /** The first index of the window ending at `cursor`: `ps` voices back when
      there are that many, else the start of the list. */
  function Begin(cursor: int, ps: int): (r: nat)
    ensures -1 <= cursor && ps >= 0 ==> r <= cursor + 1 && cursor + 1 - r == if ps < cursor + 1 then ps else cursor + 1
    ensures -1 <= cursor && ps < 0 ==> r > cursor + 1
  {
    if cursor >= ps then cursor - ps + 1 else 0
  }

  /** What a page request answers: how many older voices remain, and the
      public voices of the window. */
  datatype PageData = PageData(left: int, voices: seq<Voice>)

  /** `VoiceList.get(vid, ps)`: vid -1 asks only how many voices there are;
      otherwise the window of up to `ps` voices ending before `vid` is returned,
      without private voices, newest first, and `left` is where the window
      starts. */
  function Page(voices: seq<Voice>, vid: int, ps: int): (r: PageData)
    ensures r.left >= 0
    ensures vid == -1 ==> r == PageData(|voices|, [])
    ensures ps >= 0 ==> |r.voices| <= ps
    ensures forall i :: 0 <= i < |r.voices| ==> IsPublic(r.voices[i]) && r.voices[i] in voices
  {
    if vid == -1 then PageData(|voices|, [])
    else
      var c := Cursor(|voices|, vid);
      var b := Begin(c, ps);
      var w := PySlice(voices, b, c + 1);
      assert forall v :: v in w ==> v in voices;
      PublicMembers(w);
      PageData(b, Reverse(Public(w)))
  }

  function Max(a: int, b: int): int
  {
    if a >= b then a else b
  }

  /** For a cursor inside the list and a positive page size, the page is the
      public part of `voices[max(0, vid - ps)..vid]`, newest first, and `left`
      is where that window starts. */
  lemma PageWindow(voices: seq<Voice>, vid: int, ps: int)
    requires 1 <= vid <= |voices| && ps >= 1
    ensures Page(voices, vid, ps) == PageData(Max(0, vid - ps), Reverse(Public(voices[Max(0, vid - ps)..vid])))
  {
  }

  /** A number past the newest voice reads the same page as the number of
      the newest voice. */
  lemma PageBeyondEnd(voices: seq<Voice>, vid: int, ps: int)
    requires vid > |voices|
    ensures Page(voices, vid, ps) == Page(voices, |voices|, ps)
  {
  }

  /** Number 0 asks for the window ending before the oldest voice: nothing,
      and `left` is 0 unless the page size is negative. */
  lemma PageAtZero(voices: seq<Voice>, ps: int)
    ensures ps >= 0 ==> Page(voices, 0, ps) == PageData(0, [])
    ensures ps < 0 ==> Page(voices, 0, ps) == PageData(-ps, [])
  {
  }

  /** A negative number other than -1 reads the oldest voice alone (when it
      is public), and nothing is left. */
  lemma PageBelowMinusOne(voices: seq<Voice>, vid: int, ps: int)
    requires vid < -1 && ps >= 1
    ensures Page(voices, vid, ps) == PageData(0, if |voices| > 0 && IsPublic(voices[0]) then [voices[0]] else [])
  {
    if |voices| > 0 {
      assert PySlice(voices, 0, 1) == [voices[0]];
      assert Public([voices[0]]) == (if IsPublic(voices[0]) then [voices[0]] else []) + Public([]);
    }
  }

  /** With a page size of 0 every request answers `left == vid` and no
      voices, and with a negative one `left` grows past `vid`: a client that
      follows `left` never reaches 0. */
  lemma NonPositivePageSizeStalls(voices: seq<Voice>, vid: int, ps: int)
    requires 1 <= vid <= |voices| && ps <= 0
    ensures Page(voices, vid, ps).voices == []
    ensures ps == 0 ==> Page(voices, vid, ps).left == vid
    ensures ps < 0 ==> Page(voices, vid, ps).left > vid
  {
  }

  /** The voices a client sees by following `left` from the cursor `vid` until
      no older voice is left. */
  function Crawl(voices: seq<Voice>, vid: int, ps: int): seq<Voice>
    requires 0 <= vid <= |voices| && ps >= 1
    decreases vid
  {
    if vid == 0 then []
    else
      PageWindow(voices, vid, ps);
      var p := Page(voices, vid, ps);
      if p.left == 0 then p.voices else p.voices + Crawl(voices, p.left, ps)
  }

  /** One page of the crawl, then the rest of it. */
  lemma CrawlStep(voices: seq<Voice>, vid: int, ps: int)
    requires 1 <= vid <= |voices| && ps >= 1
    ensures Max(0, vid - ps) == 0 ==> Crawl(voices, vid, ps) == Reverse(Public(voices[..vid]))
    ensures Max(0, vid - ps) > 0 ==>
      Crawl(voices, vid, ps) == Reverse(Public(voices[Max(0, vid - ps)..vid])) + Crawl(voices, Max(0, vid - ps), ps)
  {
    PageWindow(voices, vid, ps);
    assert voices[0..vid] == voices[..vid];
  }

  /** The public voices of `voices[..vid]`, newest first, are those of
      `voices[b..vid]` followed by those of `voices[..b]`. */
  lemma NewestFirstSplit(voices: seq<Voice>, b: nat, vid: nat)
    requires b <= vid <= |voices|
    ensures Reverse(Public(voices[..vid])) == Reverse(Public(voices[b..vid])) + Reverse(Public(voices[..b]))
  {
    assert voices[..vid] == voices[..b] + voices[b..vid];
    PublicAppend(voices[..b], voices[b..vid]);
    ReverseAppend(Public(voices[..b]), Public(voices[b..vid]));
  }

  /** Pages tile: following the cursor returns every public voice older than
      the starting cursor exactly once, newest first. Starting from the count
      that vid -1 reports, this is every public voice. */
  lemma {:induction false} CrawlSeesAllPublic(voices: seq<Voice>, vid: int, ps: int)
    requires 0 <= vid <= |voices| && ps >= 1
    ensures Crawl(voices, vid, ps) == Reverse(Public(voices[..vid]))
    decreases vid
  {
    if vid == 0 {
      assert voices[..0] == [];
    } else {
      CrawlStep(voices, vid, ps);
      var b := Max(0, vid - ps);
      if b > 0 {
        CrawlSeesAllPublic(voices, b, ps);
        NewestFirstSplit(voices, b, vid);
      }
    }
  }

  /** The first real request of a client: vid -1 then the reported count. */
  lemma FirstPagesSeeAllPublic(voices: seq<Voice>, ps: int)
    requires ps >= 1
    ensures Page(voices, -1, ps).left == |voices|
    ensures Crawl(voices, Page(voices, -1, ps).left, ps) == Reverse(Public(voices))
  {
    CrawlSeesAllPublic(voices, |voices|, ps);
    assert voices[..|voices|] == voices;
  }

  /** Number 0 is treated as -1 and reaches the newest voice, the case the
      handlers' own comment leaves open. */
  lemma ZeroReachesNewest(n: nat)
    requires n > 0
    ensures PyIndex(n, 0 - 1) == Some(n - 1)
  {
  }

  // ---- the board -----------------------------------------------------------

  /** Numbers match positions: voice i carries number i + 1. */
  predicate Numbered(voices: seq<Voice>)
  {
    forall i :: 0 <= i < |voices| ==> voices[i].vid == i + 1
  }

  /** Posting: the forbidden word refuses; otherwise the voice is appended
      with number equal to the new length. */
  function Posting(voices: seq<Voice>, text: string, private: int, now: string, user: string): (r: Result<seq<Voice>, ExcInstance>)
    ensures r.Err? <==> Contains(text, ForbiddenWord)
    ensures r.Err? ==> r.error == AppInit(ForbiddenWordClass, PNone, PNone)
    ensures r.Ok? ==> |r.value| == |voices| + 1 && r.value[..|voices|] == voices
    ensures r.Ok? ==> r.value[|voices|] == Voice(text, private, now, user, |voices| + 1)
  {
    if Contains(text, ForbiddenWord) then Err(AppInit(ForbiddenWordClass, PNone, PNone))
    else Ok(voices + [Voice(text, private, now, user, |voices| + 1)])
  }

  /** Posting keeps numbers matching positions. */
  lemma PostingKeepsNumbered(voices: seq<Voice>, text: string, private: int, now: string, user: string)
    requires Numbered(voices) && Posting(voices, text, private, now, user).Ok?
    ensures Numbered(Posting(voices, text, private, now, user).value)
  {
    var r := Posting(voices, text, private, now, user).value;
    forall i | 0 <= i < |r| ensures r[i].vid == i + 1 {
      if i < |voices| {
        assert r[i] == r[..|voices|][i];
      }
    }
  }

  /** Deleting does not renumber, so a deletion followed by a post gives two
      voices the same number. */
  lemma DeleteThenPostRepeatsNumber(a: Voice, b: Voice, text: string, now: string, user: string)
    requires a.vid == 1 && b.vid == 2 && !Contains(text, ForbiddenWord)
    ensures var after := [a, b][..0] + [a, b][1..];
            var posted := Posting(after, text, 0, now, user).value;
            posted[0].vid == posted[1].vid == 2 && !Numbered(posted)
  {
    var after := [a, b][..0] + [a, b][1..];
    assert after == [b];
  }

  /** What the handlers of one voice raise when the number does not name a
      voice, or names another user's voice. */
  function ReadCheck(voices: seq<Voice>, vid: int, user: string): (r: Result<nat, ExcInstance>)
    ensures r.Ok? <==> PyIndex(|voices|, vid - 1).Some? && (IsPublic(voices[PyIndex(|voices|, vid - 1).value]) || voices[PyIndex(|voices|, vid - 1).value].uname == user)
    ensures r.Ok? ==> r.value == PyIndex(|voices|, vid - 1).value
    ensures PyIndex(|voices|, vid - 1).None? ==> r == Err(AppInit(NotFoundClass, PStr("不存在该vid对应的voice"), PNone))
    ensures r.Err? && PyIndex(|voices|, vid - 1).Some? ==> r == Err(AppInit(PrivateVoiceClass, PNone, PNone))
  {
    match PyIndex(|voices|, vid - 1)
    case None => Err(AppInit(NotFoundClass, PStr("不存在该vid对应的voice"), PNone))
    case Some(k) =>
      if !IsPublic(voices[k]) && voices[k].uname != user then Err(AppInit(PrivateVoiceClass, PNone, PNone))
      else Ok(k)
  }

  /** The owner check of editing and deleting: the number must name a voice,
      and that voice must be the user's. */
  function OwnerCheck(voices: seq<Voice>, vid: int, user: string, missing: string, foreign: string): (r: Result<nat, ExcInstance>)
    ensures r.Ok? <==> PyIndex(|voices|, vid - 1).Some? && voices[PyIndex(|voices|, vid - 1).value].uname == user
    ensures r.Ok? ==> r.value == PyIndex(|voices|, vid - 1).value
    ensures PyIndex(|voices|, vid - 1).None? ==> r == Err(AppInit(NotFoundClass, PStr(missing), PNone))
    ensures r.Err? && PyIndex(|voices|, vid - 1).Some? ==> r == Err(AppInit(PrivateVoiceClass, PStr(foreign), PNone))
  {
    match PyIndex(|voices|, vid - 1)
    case None => Err(AppInit(NotFoundClass, PStr(missing), PNone))
    case Some(k) =>
      if voices[k].uname != user then Err(AppInit(PrivateVoiceClass, PStr(foreign), PNone)) else Ok(k)
  }

  /** The refusals the handlers raise with a keyword message carry the class
      defaults, not the message given. */
  lemma RefusalsKeepClassDefaults(voices: seq<Voice>, vid: int, user: string)
    ensures var r := OwnerCheck(voices, vid, user, "不可删除不存在的voice", "不可删除其他用户的voice");
            r.Err? ==> r.error.message == r.error.cls.message && r.error.status == r.error.cls.status
    ensures var r := ReadCheck(voices, vid, user);
            r.Err? ==> r.error.message == r.error.cls.message && r.error.status == r.error.cls.status
  {
    AppKeywordMessageIsLost(NotFoundClass, "不存在该vid对应的voice");
    AppKeywordMessageIsLost(NotFoundClass, "不可删除不存在的voice");
    AppKeywordMessageIsLost(PrivateVoiceClass, "不可删除其他用户的voice");
    AppBareRaiseKeepsDefaults(PrivateVoiceClass);
  }

  /** The stored voices (`db['voices']`) and the handlers that change them. */
  class VoiceBoard {
    var voices: seq<Voice>

    constructor ()
      ensures voices == []
    {
      voices := [];
    }

    /** `VoiceList.post`: the stored record and status 201, or ForbiddenWord
        with nothing stored. */
    method Post(text: string, private: int, now: string, user: string) returns (r: Result<(Voice, int), ExcInstance>)
      modifies this
      ensures Posting(old(voices), text, private, now, user).Err? ==>
        voices == old(voices) && r == Err(Posting(old(voices), text, private, now, user).error)
      ensures Posting(old(voices), text, private, now, user).Ok? ==>
        voices == Posting(old(voices), text, private, now, user).value
        && r == Ok((voices[|voices| - 1], 201))
    {
      if Contains(text, ForbiddenWord) {
        return Err(AppInit(ForbiddenWordClass, PNone, PNone));
      }
      var v := Voice(text, private, now, user, 0);
      voices := voices + [v];
      v := v.(vid := |voices|);
      voices := voices[|voices| - 1 := v];
      r := Ok((v, 201));
    }

    /** `Voice.get`: the voice and status 200, unless the number names no
        voice or names another user's private voice. */
    method Get(vid: int, user: string) returns (r: Result<(Voice, int), ExcInstance>)
      ensures ReadCheck(voices, vid, user).Err? ==> r == Err(ReadCheck(voices, vid, user).error)
      ensures ReadCheck(voices, vid, user).Ok? ==> r == Ok((voices[ReadCheck(voices, vid, user).value], 200))
    {
      var i := vid - 1;
      var n := |voices|;
      if !(-n <= i < n) {
        return Err(AppInit(NotFoundClass, PStr("不存在该vid对应的voice"), PNone));
      }
      var k := if i < 0 then n + i else i;
      var v := voices[k];
      if v.private != 0 && v.uname != user {
        return Err(AppInit(PrivateVoiceClass, PNone, PNone));
      }
      r := Ok((v, 200));
    }

    /** `Voice.put`: the owner stamps the voice with a new date and privacy
        flag; every other voice is untouched, and a refusal changes nothing. */
    method Put(vid: int, private: int, now: string, user: string) returns (r: Result<(Voice, int), ExcInstance>)
      modifies this
      ensures var c := OwnerCheck(old(voices), vid, user, "不可修改不存在的voice", "不可修改其他用户的voice");
              c.Err? ==> voices == old(voices) && r == Err(c.error)
      ensures var c := OwnerCheck(old(voices), vid, user, "不可修改不存在的voice", "不可修改其他用户的voice");
              c.Ok? ==>
                && voices == old(voices)[c.value := old(voices)[c.value].(date := now, private := private)]
                && r == Ok((voices[c.value], 200))
    {
      var i := vid - 1;
      var n := |voices|;
      if !(-n <= i < n) {
        return Err(AppInit(NotFoundClass, PStr("不可修改不存在的voice"), PNone));
      }
      var k := if i < 0 then n + i else i;
      if voices[k].uname != user {
        return Err(AppInit(PrivateVoiceClass, PStr("不可修改其他用户的voice"), PNone));
      }
      var data := voices[k].(date := now);
      data := data.(private := private);
      voices := voices[k := data];
      r := Ok((data, 200));
    }

    /** `Voice.delete`: the owner's voice is removed and returned; the others
        keep their order; a refusal changes nothing. */
    method Delete(vid: int, user: string) returns (r: Result<(Voice, int), ExcInstance>)
      modifies this
      ensures var c := OwnerCheck(old(voices), vid, user, "不可删除不存在的voice", "不可删除其他用户的voice");
              c.Err? ==> voices == old(voices) && r == Err(c.error)
      ensures var c := OwnerCheck(old(voices), vid, user, "不可删除不存在的voice", "不可删除其他用户的voice");
              c.Ok? ==>
                && voices == old(voices)[..c.value] + old(voices)[c.value + 1..]
                && r == Ok((old(voices)[c.value], 200))
    {
      var i := vid - 1;
      var n := |voices|;
      if !(-n <= i < n) {
        return Err(AppInit(NotFoundClass, PStr("不可删除不存在的voice"), PNone));
      }
      var k := if i < 0 then n + i else i;
      if voices[k].uname != user {
        return Err(AppInit(PrivateVoiceClass, PStr("不可删除其他用户的voice"), PNone));
      }
      var v := voices[k];
      voices := voices[..k] + voices[k + 1..];
      r := Ok((v, 200));
    }
  }

  /** Deleting removes exactly one voice: the multiset of voices loses that
      voice and nothing else. */
  lemma DeleteRemovesOne(voices: seq<Voice>, k: nat)
    requires k < |voices|
    ensures multiset(voices[..k] + voices[k + 1..]) + multiset{voices[k]} == multiset(voices)
  {
    assert voices == voices[..k] + [voices[k]] + voices[k + 1..];
  }
}
