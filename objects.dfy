// The forum's data objects (src/objects.ts): a post, a thread's first post, a
// thread page with its replies, and a board thread. Every getter reads the raw
// object the API returned; a thread page builds its list of replies once and keeps
// it. Dates stop at the text handed to the date library.

module Objects {
  import opened Wrappers
  import opened Js

  /** `PostRaw`: every field is the API's string. */
  datatype PostRaw = PostRaw(
    id: string, img: string, ext: string, now: string, userid: string,
    name: string, email: string, title: string, content: string, sage: string, admin: string)

  /** `ThreadBodyRaw`: a post with a reply count and, outside board pages, the board's `fid`. */
  datatype ThreadBodyRaw = ThreadBodyRaw(post: PostRaw, replyCount: string, fid: Option<string>)

  /** `ThreadPageRaw`: a thread's first post and the replies on the page. */
  datatype ThreadPageRaw = ThreadPageRaw(body: ThreadBodyRaw, replys: seq<PostRaw>)

  /** `new Post(raw)`: nothing but the raw object, which no getter changes. */
  datatype Post = Post(raw: PostRaw)

  // ---- `Post`'s getters -------------------------------------------------------------------

  /** `id`: `Number(raw.id)`. */
  function Id(p: PostRaw): Number {
    ToNumber(p.id)
  }

  /** `attachmentBase`: `null` for an empty `img`. */
  function AttachmentBase(p: PostRaw): (r: Option<string>)
    ensures r.None? <==> p.img == ""
    ensures r.Some? ==> r.value == p.img
  {
    if p.img != "" then Some(p.img) else None
  }

  /** `attachmentExtension`: `null` for an empty `ext`. */
  function AttachmentExtension(p: PostRaw): (r: Option<string>)
    ensures r.None? <==> p.ext == ""
    ensures r.Some? ==> r.value == p.ext
  {
    if p.ext != "" then Some(p.ext) else None
  }

  /** `userId`. */
  function UserId(p: PostRaw): string {
    p.userid
  }

  /** `name`: `null` for the anonymous default 无名氏. */
  function Name(p: PostRaw): (r: Option<string>)
    ensures r.None? <==> p.name == "无名氏"
    ensures r.Some? ==> r.value == p.name
  {
    if p.name != "无名氏" then Some(p.name) else None
  }

  /** `email` as written: it tests `raw.name`, not `raw.email`. */
  function Email(p: PostRaw): (r: Option<string>)
    ensures r.None? <==> p.name == ""
    ensures r.Some? ==> r.value == p.email
  {
    if p.name != "" then Some(p.email) else None
  }

  /** `title` as written: it tests `raw.name` against the title's default 无标题. */
  function Title(p: PostRaw): (r: Option<string>)
    ensures r.None? <==> p.name == "无标题"
    ensures r.Some? ==> r.value == p.title
  {
    if p.name != "无标题" then Some(p.title) else None
  }

  /** `email` as the fixtures expect it: `null` for an empty `email`. */
  function IntendedEmail(p: PostRaw): (r: Option<string>)
    ensures r.None? <==> p.email == ""
    ensures r.Some? ==> r.value == p.email
  {
    if p.email != "" then Some(p.email) else None
  }

  /** `title` as the fixtures expect it: `null` for the default title 无标题. */
  function IntendedTitle(p: PostRaw): (r: Option<string>)
    ensures r.None? <==> p.title == "无标题"
    ensures r.Some? ==> r.value == p.title
  {
    if p.title != "无标题" then Some(p.title) else None
  }

  /** `content`. */
  function Content(p: PostRaw): string {
    p.content
  }

  /** `marked_sage`: anything but `'0'`. */
  predicate MarkedSage(p: PostRaw) {
    p.sage != "0"
  }

  /** `marked_admin`: anything but `'0'`. */
  predicate MarkedAdmin(p: PostRaw) {
    p.admin != "0"
  }

  // ---- `parseDateText` ------------------------------------------------------------------

  /** What `.` in a regular expression does not match. */
  predicate IsLineTerminator(c: char) {
    c == '\n' || c == '\r' || c == '\U{2028}' || c == '\U{2029}'
  }

  predicate NoLineTerminator(s: string) {
    forall i :: 0 <= i < |s| ==> !IsLineTerminator(s[i])
  }

  /** `\(.\)` at index `i`: a weekday such as `(一)` between the date and the time. */
  predicate MarkerAt(s: string, i: nat) {
    i + 3 <= |s| && s[i] == '(' && !IsLineTerminator(s[i + 1]) && s[i + 2] == ')'
  }

  /** `^(.*?)\(.\)(.*?)$` matches with the marker at `i`. */
  predicate RegexMatchAt(s: string, i: nat) {
    MarkerAt(s, i) && NoLineTerminator(s[..i]) && NoLineTerminator(s[i + 3..])
  }

  /** The first marker at or after `from`. */
  function FirstMarker(s: string, from: nat): (r: Option<nat>)
    decreases |s| - from
    ensures r.Some? ==> from <= r.value && MarkerAt(s, r.value)
    ensures r.Some? ==> forall j :: from <= j < r.value ==> !MarkerAt(s, j)
    ensures r.None? ==> forall j :: from <= j ==> !MarkerAt(s, j)
  {
    if from + 3 > |s| then None
    else if MarkerAt(s, from) then Some(from)
    else FirstMarker(s, from + 1)
  }

  /**
   * The text `parseDateText` gives the date library, `${g[1]} ${g[2]}`: the text
   * before the first marker and the text after it, joined by one space. `None` is
   * the `TypeError` of `g!` when the expression does not match.
   */
  function DateText(text: string): (r: Option<string>)
  {
    if !NoLineTerminator(text) then None
    else match FirstMarker(text, 0)
      case None => None
      case Some(i) => Some(text[..i] + " " + text[i + 3..])
  }

  /**
   * `DateText` is what the regular expression's lazy groups capture: it matches
   * exactly when some marker position matches, and then the smallest one splits it.
   */
  lemma {:induction false} DateTextIsRegexMatch(text: string)
    ensures DateText(text).Some? <==> exists i: nat :: RegexMatchAt(text, i)
    ensures DateText(text).Some? ==>
      exists i: nat :: && RegexMatchAt(text, i) && (forall j: nat :: j < i ==> !RegexMatchAt(text, j))
                  && DateText(text).value == text[..i] + " " + text[i + 3..]
  {
    if NoLineTerminator(text) {
      match FirstMarker(text, 0)
      case None =>
      case Some(i) =>
        assert RegexMatchAt(text, i) by {
          NoTerminatorInSlices(text, i);
        }
    } else {
      var k :| 0 <= k < |text| && IsLineTerminator(text[k]);
    }
  }

  lemma NoTerminatorInSlices(text: string, i: nat)
    requires NoLineTerminator(text) && i + 3 <= |text|
    ensures NoLineTerminator(text[..i]) && NoLineTerminator(text[i + 3..])
  {
    assert forall k :: 0 <= k < i ==> text[..i][k] == text[k];
    var rest := text[i + 3..];
    assert forall k :: 0 <= k < |rest| ==> rest[k] == text[i + 3 + k];
  }

  /** The API's `2020-07-13(一)16:22:38` becomes `2020-07-13 16:22:38`. */
  lemma DateTextExample()
    ensures DateText("2020-07-13(一)16:22:38") == Some("2020-07-13 16:22:38")
  {
    var s := "2020-07-13(一)16:22:38";
    ExampleMarker(s);
    DateTextAt(s, 10);
    ExampleSlices(s);
  }

  lemma ExampleMarker(s: string)
    requires s == "2020-07-13(一)16:22:38"
    ensures NoLineTerminator(s) && MarkerAt(s, 10) && forall j :: 0 <= j < 10 ==> !MarkerAt(s, j)
  {
  }

  lemma ExampleSlices(s: string)
    requires s == "2020-07-13(一)16:22:38"
    ensures s[..10] + " " + s[13..] == "2020-07-13 16:22:38"
  {
    assert s[..10] == "2020-07-13" && s[13..] == "16:22:38";
  }

  /** Without line terminators, the date text splits around the first marker. */
  lemma DateTextAt(s: string, i: nat)
    requires NoLineTerminator(s) && MarkerAt(s, i) && forall j :: 0 <= j < i ==> !MarkerAt(s, j)
    ensures DateText(s) == Some(s[..i] + " " + s[i + 3..])
  {
    FirstMarkerSkips(s, 0, i);
  }

  lemma {:induction false} FirstMarkerSkips(s: string, from: nat, at: nat)
    requires from <= at && MarkerAt(s, at)
    requires forall j :: from <= j < at ==> !MarkerAt(s, j)
    ensures FirstMarker(s, from) == Some(at)
    decreases at - from
  {
    if from < at {
      FirstMarkerSkips(s, from + 1, at);
    }
  }

  /** `createdAt`: the post's `now` as date text. */
  function CreatedAt(p: PostRaw): Option<string> {
    DateText(p.now)
  }

  // ---- `ThreadBody`'s getters -------------------------------------------------------------

  /** `totalReplyCount`: `Number(raw.replyCount)`. */
  function TotalReplyCount(b: ThreadBodyRaw): Number {
    ToNumber(b.replyCount)
  }

  /** `boardId`: `null` when `fid` is absent, as on board pages. */
  function BoardId(b: ThreadBodyRaw): (r: Option<Number>)
    ensures r.None? <==> b.fid.None?
    ensures r.Some? ==> r.value == ToNumber(b.fid.value)
  {
    if b.fid.Some? then Some(ToNumber(b.fid.value)) else None
  }

  // ---- `ThreadPage` and `BoardThread` -----------------------------------------------------

  /** `raw.replys.map(postRaw => new Post(postRaw))`. */
  function RepliesOf(raw: ThreadPageRaw): (r: seq<Post>)
    ensures |r| == |raw.replys|
    ensures forall i :: 0 <= i < |r| ==> r[i].raw == raw.replys[i]
  {
    seq(|raw.replys|, i requires 0 <= i < |raw.replys| => Post(raw.replys[i]))
  }

  class ThreadPage {
    const raw: ThreadPageRaw
    /** `_repliesCache`: `null` until `replies` is first read. */
    var repliesCache: Option<seq<Post>>

    /** A cache, once filled, holds the replies of `raw`. */
    ghost predicate Valid()
      reads this
    {
      repliesCache.Some? ==> repliesCache.value == RepliesOf(raw)
    }

    constructor (raw: ThreadPageRaw)
      ensures this.raw == raw && repliesCache.None?
      ensures Valid()
    {
      this.raw := raw;
      repliesCache := None;
    }

    /**
     * `replies`: built from `raw.replys` on the first read and kept; any later read
     * returns the kept list. An empty list is kept too, since `![]` is false.
     */
    method Replies() returns (replies: seq<Post>)
      requires Valid()
      modifies this
      ensures Valid()
      ensures replies == RepliesOf(raw) && repliesCache == Some(replies)
      ensures old(repliesCache).Some? ==> replies == old(repliesCache).value
    {
      if repliesCache.None? {
        repliesCache := Some(RepliesOf(raw));
      }
      replies := repliesCache.value;
    }
  }

  /** `lastModifiedTime`: the last reply's `createdAt`, or the thread's own without replies. */
  function LastModified(raw: ThreadPageRaw): Option<string> {
    if |raw.replys| == 0 then CreatedAt(raw.body.post) else CreatedAt(raw.replys[|raw.replys| - 1])
  }

  /** `BoardThread`: a thread page with `lastModifiedTime`. */
  class BoardThread {
    const page: ThreadPage

    constructor (raw: ThreadPageRaw)
      ensures fresh(page) && page.raw == raw && page.repliesCache.None? && page.Valid()
    {
      page := new ThreadPage(raw);
    }

    /** `lastModifiedTime`, which reads `replies` and so fills the cache. */
    method LastModifiedTime() returns (t: Option<string>)
      requires page.Valid()
      modifies page
      ensures page.Valid() && page.repliesCache == Some(RepliesOf(page.raw))
      ensures t == LastModified(page.raw)
    {
      var replies := page.Replies();
      if |replies| == 0 {
        return CreatedAt(page.raw.body.post);
      }
      replies := page.Replies();
      t := CreatedAt(replies[|replies| - 1].raw);
    }
  }

  // ---- properties -------------------------------------------------------------------------

  /** Reading `replies` twice gives the same list and leaves the cache as the first read left it. */
  method RepliesTwice(page: ThreadPage) returns (first: seq<Post>, second: seq<Post>)
    requires page.Valid()
    modifies page
    ensures first == second && |first| == |page.raw.replys|
    ensures forall i :: 0 <= i < |first| ==> first[i].raw == page.raw.replys[i]
  {
    first := page.Replies();
    second := page.Replies();
  }

  /** A reply added to the page becomes its last-modified time; the thread's own date counts only without replies. */
  lemma LastModifiedAfterReply(raw: ThreadPageRaw, reply: PostRaw)
    ensures LastModified(raw.(replys := raw.replys + [reply])) == CreatedAt(reply)
    ensures raw.replys == [] ==> LastModified(raw) == CreatedAt(raw.body.post)
  {
  }

  /**
   * The repository's anonymous post (name 无名氏, empty email, title 无标题): the
   * fixtures expect `null` for all three, which the intended getters give and the
   * written `email` and `title` do not.
   */
  lemma AnonymousPostFields(p: PostRaw)
    requires p.name == "无名氏" && p.email == "" && p.title == "无标题"
    ensures Name(p).None? && IntendedEmail(p).None? && IntendedTitle(p).None?
    ensures Email(p) == Some("") && Title(p) == Some("无标题")
  {
  }

  /** The fixture's second reply: its attachment `2020-07-13/5f0c2b66061bf` with `.jpg`, neither sage nor admin. */
  lemma AttachmentExample(p: PostRaw)
    requires p.img == "2020-07-13/5f0c2b66061bf" && p.ext == ".jpg" && p.sage == "0" && p.admin == "0"
    ensures AttachmentBase(p) == Some("2020-07-13/5f0c2b66061bf") && AttachmentExtension(p) == Some(".jpg")
    ensures !MarkedSage(p) && !MarkedAdmin(p)
  {
  }

  /** `boardId` and `totalReplyCount` read back the numbers whose decimal strings the API sends. */
  lemma NumbersRoundTrip(b: ThreadBodyRaw, count: int, board: int)
    requires b.replyCount == NumberToString(count) && b.fid == Some(NumberToString(board))
    ensures TotalReplyCount(b) == Finite(count) && BoardId(b) == Some(Finite(board))
  {
    NumberOfString(count);
    NumberOfString(board);
  }
}
