/** ObjectCreated messages: percent-encoding (sections 2.1 and 2.3 of RFC 3986) with `+` for a
    space (section 17.13.4.1 of HTML 4.01). Quoted and unquoted text are byte strings. */
module S3Events {
  import opened Options
  import opened VideoIds
  import opened UploadKeys

  const UPPER_HEX := "0123456789ABCDEF"

  predicate IsBytes(s: string) {
    forall i :: 0 <= i < |s| ==> s[i] < 256 as char
  }

  predicate IsUnreserved(c: char) {
    IsDigit(c) || 'a' <= c <= 'z' || 'A' <= c <= 'Z' || c == '-' || c == '.' || c == '_' || c == '~'
  }

  function QuoteByte(c: char): string
    requires c < 256 as char
  {
    if IsUnreserved(c) then [c]
    else if c == ' ' then "+"
    else ['%', UPPER_HEX[c as int / 16], UPPER_HEX[c as int % 16]]
  }

  /** quote_plus. */
  function QuotePlus(s: string): string
    requires IsBytes(s)
  {
    if s == "" then "" else QuoteByte(s[0]) + QuotePlus(s[1..])
  }

  function PlusToSpace(s: string): (r: string)
    ensures |r| == |s|
  {
    if s == "" then "" else [if s[0] == '+' then ' ' else s[0]] + PlusToSpace(s[1..])
  }

  /** Decodes each well-formed %XX and keeps every other character. */
  function Unquote(s: string): string {
    if s == "" then ""
    else if |s| >= 3 && s[0] == '%' && IsHex(s[1]) && IsHex(s[2])
    then [(HexValue(s[1]) * 16 + HexValue(s[2])) as char] + Unquote(s[3..])
    else [s[0]] + Unquote(s[1..])
  }

  /** unquote_plus: `+` is decoded before %XX. */
  function UnquotePlus(s: string): string {
    Unquote(PlusToSpace(s))
  }

  lemma PlusToSpaceOfQuotedByte(c: char, rest: string)
    requires c < 256 as char
    ensures PlusToSpace(QuoteByte(c) + rest) == (if c == ' ' then " " else QuoteByte(c)) + PlusToSpace(rest)
  {
    var q := QuoteByte(c);
    assert (q + rest)[1..] == q[1..] + rest;
    if |q| == 3 {
      var h1, h2 := q[1], q[2];
      assert h1 != '+' && h2 != '+';
      assert q + rest == [q[0]] + ([h1] + ([h2] + rest));
      assert PlusToSpace([h2] + rest) == [h2] + PlusToSpace(rest) by { assert ([h2] + rest)[1..] == rest; }
      assert PlusToSpace([h1] + ([h2] + rest))
        == [h1] + PlusToSpace([h2] + rest) by { assert ([h1] + ([h2] + rest))[1..] == [h2] + rest; }
      assert (q + rest)[1..] == [h1] + ([h2] + rest);
      assert PlusToSpace(q + rest) == q + PlusToSpace(rest);
    } else {
      assert q[1..] + rest == rest;
    }
  }

  lemma UpperHexReads(d: nat)
    requires d < 16
    ensures IsHex(UPPER_HEX[d]) && HexValue(UPPER_HEX[d]) == d
  {
  }

  lemma UnquoteOfQuotedByte(c: char, rest: string)
    requires c < 256 as char
    ensures Unquote((if c == ' ' then " " else QuoteByte(c)) + rest) == [c] + Unquote(rest)
  {
    hide IsHex, HexValue;
    var q := if c == ' ' then " " else QuoteByte(c);
    if |q| == 3 {
      UpperHexReads(c as int / 16);
      UpperHexReads(c as int % 16);
      assert (q + rest)[3..] == rest;
    } else {
      assert (q + rest)[1..] == rest;
    }
  }

  /** Every key survives quoting: spaces, plus signs, percent signs, slashes, any byte. */
  lemma {:induction false} QuoteRoundTrip(s: string)
    requires IsBytes(s)
    ensures UnquotePlus(QuotePlus(s)) == s
  {
    if s == "" {
    } else {
      PlusToSpaceOfQuotedByte(s[0], QuotePlus(s[1..]));
      UnquoteOfQuotedByte(s[0], PlusToSpace(QuotePlus(s[1..])));
      QuoteRoundTrip(s[1..]);
    }
  }

  // ---- Any encoding ----

  /** One way to write a character: as itself unless it is a percent or plus sign, as %XX with
      digits in either case, or a space as `+`. */
  predicate Writes(part: string, c: char) {
    || (part == [c] && c != '%' && c != '+')
    || (part == "+" && c == ' ')
    || (|part| == 3 && part[0] == '%' && IsHex(part[1]) && IsHex(part[2])
        && HexValue(part[1]) * 16 + HexValue(part[2]) == c as int)
  }

  function Joined(parts: seq<string>): string {
    if parts == [] then "" else parts[0] + Joined(parts[1..])
  }

  lemma PlusToSpaceOfWritten(part: string, c: char, rest: string)
    requires Writes(part, c)
    ensures PlusToSpace(part + rest) == (if part == "+" then " " else part) + PlusToSpace(rest)
  {
    if |part| == 1 {
      assert (part + rest)[1..] == rest;
    } else {
      assert !IsHex('+') && part[1] != '+' && part[2] != '+';
      var last, middle := [part[2]] + rest, [part[1]] + ([part[2]] + rest);
      assert part + rest == [part[0]] + middle;
      assert middle[1..] == last && last[1..] == rest && (part + rest)[1..] == middle;
      assert PlusToSpace(last) == [part[2]] + PlusToSpace(rest);
      assert PlusToSpace(middle) == [part[1]] + PlusToSpace(last);
      assert PlusToSpace(part + rest) == part + PlusToSpace(rest);
    }
  }

  lemma UnquoteOfWritten(part: string, c: char, rest: string)
    requires Writes(part, c)
    ensures Unquote((if part == "+" then " " else part) + rest) == [c] + Unquote(rest)
  {
    hide IsHex, HexValue;
    var p := if part == "+" then " " else part;
    if |part| == 1 {
      assert (p + rest)[1..] == rest;
    } else {
      assert (p + rest)[3..] == rest;
    }
  }

  /** However the sender chooses to write each character, decoding gives the characters back. */
  lemma {:induction false} AnyEncodingDecodes(parts: seq<string>, s: string)
    requires |parts| == |s| && forall i :: 0 <= i < |s| ==> Writes(parts[i], s[i])
    ensures UnquotePlus(Joined(parts)) == s
  {
    if s == "" {
    } else {
      hide Writes;
      AnyEncodingDecodes(parts[1..], s[1..]);
      PlusToSpaceOfWritten(parts[0], s[0], Joined(parts[1..]));
      UnquoteOfWritten(parts[0], s[0], PlusToSpace(Joined(parts[1..])));
    }
  }

  /** A percent sign that two hexadecimal digits do not follow is kept. */
  lemma {:induction false} NoEscapesNoChange(s: string)
    requires forall i :: 0 <= i < |s| - 2 && s[i] == '%' ==> !IsHex(s[i + 1]) || !IsHex(s[i + 2])
    ensures Unquote(s) == s
  {
    if s == "" {
    } else {
      NoEscapesNoChange(s[1..]);
    }
  }

  /** Text without percent and plus signs stands for itself. */
  lemma {:induction false} PlainTextDecodes(s: string)
    requires '%' !in s && '+' !in s
    ensures UnquotePlus(s) == s
  {
    NoEscapesNoChange(s);
    NoPlusNoChange(s);
  }

  lemma {:induction false} NoPlusNoChange(s: string)
    requires '+' !in s
    ensures PlusToSpace(s) == s
  {
    if s == "" {
    } else {
      NoPlusNoChange(s[1..]);
    }
  }

  lemma KeyIsPlain(id: VideoId, stem: string, ext: string)
    requires (exists k :: 0 <= k < |stem| && stem[k] != '.')
    requires forall c :: c in ext ==> '0' <= c <= '9' || 'a' <= c <= 'z' || 'A' <= c <= 'Z'
    ensures var key := BuildUploadObjectKey(id, stem + "." + ext); '%' !in key && '+' !in key
  {
    hide Text, HasUuidShape, FromText, Suffix;
    TextRoundTrip(id);
    SuffixOf(stem, ext);
    var text := Text(id);
    assert '.' !in ext ==> BuildUploadObjectKey(id, stem + "." + ext) == UPLOADS + text + ORIGINAL + "." + ext;
  }

  /** A notification that gives the key of `<stem>.<letters and digits>` as it is, slashes and all,
      is read as that key and resolves to its video. */
  lemma RawKeyIsRecognised(stored: map<VideoId, string>, bucket: string, id: VideoId, stem: string, ext: string)
    requires '/' !in stem && (exists k :: 0 <= k < |stem| && stem[k] != '.') && ext != ""
    requires forall c :: c in ext ==> '0' <= c <= '9' || 'a' <= c <= 'z' || 'A' <= c <= 'Z'
    requires id in stored && stored[id] == BuildUploadObjectKey(id, stem + "." + ext)
    ensures var events := ParsedEvents(Body(Some([Record(Some(S3Section(bucket, stored[id])))])));
      events == [ObjectCreatedEvent(bucket, stored[id])] && ResolveVideoId(stored, events[0].key) == Some(id)
  {
    hide UnquotePlus, ResolveVideoId, BuildUploadObjectKey;
    KeyIsPlain(id, stem, ext);
    PlainTextDecodes(stored[id]);
    PlainNamesAreRecognised(stored, id, stem, ext);
    var records := [Record(Some(S3Section(bucket, stored[id])))];
    assert EventsOf(records[1..]) == [];
  }

  // ---- What quoting writes ----

  /** The characters RFC 3986 leaves unreserved. */
  lemma UnreservedIff(c: char)
    ensures IsUnreserved(c) <==>
      '0' <= c <= '9' || 'a' <= c <= 'z' || 'A' <= c <= 'Z' || c == '-' || c == '.' || c == '_' || c == '~'
  {
  }

  /** The unreserved characters, and only they, are written as themselves. */
  lemma {:induction false} QuotedUnchangedIff(s: string)
    requires IsBytes(s)
    ensures QuotePlus(s) == s <==> forall c :: c in s ==>
      '0' <= c <= '9' || 'a' <= c <= 'z' || 'A' <= c <= 'Z' || c == '-' || c == '.' || c == '_' || c == '~'
  {
    if s == "" {
    } else {
      var first, rest := QuoteByte(s[0]), QuotePlus(s[1..]);
      QuotedUnchangedIff(s[1..]);
      QuotedLength(s[1..]);
      assert s == [s[0]] + s[1..];
      if IsUnreserved(s[0]) {
        assert first == [s[0]];
        UnreservedIff(s[0]);
        assert QuotePlus(s) == s <==> rest == s[1..] by {
          assert rest == (first + rest)[1..];
        }
        assert forall c :: c in s <==> c == s[0] || c in s[1..];
      } else {
        assert s[0] in s;
        assert s[0] == ' ' ==> QuotePlus(s)[0] == '+';
        assert s[0] != ' ' ==> |QuotePlus(s)| > |s|;
      }
    }
  }

  lemma {:induction false} QuotedLength(s: string)
    requires IsBytes(s)
    ensures |QuotePlus(s)| >= |s|
  {
    if s == "" {
    } else {
      QuotedLength(s[1..]);
    }
  }

  lemma {:induction false} PlusFromSpace(s: string)
    requires IsBytes(s)
    ensures |Unquote(QuotePlus(s))| == |s|
    ensures forall i :: 0 <= i < |s| ==> Unquote(QuotePlus(s))[i] == if s[i] == ' ' then '+' else s[i]
  {
    if s == "" {
    } else {
      PlusFromSpace(s[1..]);
      if s[0] == ' ' {
        assert QuotePlus(s)[1..] == QuotePlus(s[1..]);
      } else {
        UnquoteOfQuotedByte(s[0], QuotePlus(s[1..]));
      }
    }
  }

  lemma {:induction false} SpaceFromPlus(s: string)
    ensures forall i :: 0 <= i < |s| ==> PlusToSpace(s)[i] == if s[i] == '+' then ' ' else s[i]
  {
    if s == "" {
    } else {
      SpaceFromPlus(s[1..]);
    }
  }

  /** Decoding %XX before `+` would be right for a key exactly if it holds no plus sign: each plus
      sign would come back as a space. */
  lemma DecodingOrderMatters(s: string)
    requires IsBytes(s)
    ensures PlusToSpace(Unquote(QuotePlus(s))) == s <==> '+' !in s
  {
    var early := Unquote(QuotePlus(s));
    PlusFromSpace(s);
    SpaceFromPlus(early);
    assert forall i :: 0 <= i < |s| ==> PlusToSpace(early)[i] == if s[i] == '+' then ' ' else s[i];
    if '+' in s {
      var i :| 0 <= i < |s| && s[i] == '+';
      assert PlusToSpace(early)[i] == ' ';
    }
  }

  // ---- Messages ----

  datatype S3Section = S3Section(bucket: string, quotedKey: string)

  /** A record of the message body; S3's one-off test event has no "s3" section. */
  datatype Record = Record(s3: Option<S3Section>)

  /** The parsed JSON body; `records` is None when the body has no "Records". */
  datatype Body = Body(records: Option<seq<Record>>)

  datatype ObjectCreatedEvent = ObjectCreatedEvent(bucket: string, key: string)

  function EventsOf(records: seq<Record>): seq<ObjectCreatedEvent> {
    if records == [] then []
    else
      var first := records[0].s3;
      (if first.None? then [] else [ObjectCreatedEvent(first.value.bucket, UnquotePlus(first.value.quotedKey))])
      + EventsOf(records[1..])
  }

  function ParsedEvents(body: Body): seq<ObjectCreatedEvent> {
    if body.records.None? then [] else EventsOf(body.records.value)
  }

  lemma {:induction false} EventsOfAppend(records: seq<Record>, last: Record)
    ensures EventsOf(records + [last]) == EventsOf(records) + EventsOf([last])
  {
    if records == [] {
      assert records + [last] == [last];
    } else {
      assert (records + [last])[1..] == records[1..] + [last];
      EventsOfAppend(records[1..], last);
    }
  }

  /** The records of a message are read one by one, in order: one event for each that has an "s3"
      section, with its bucket and its decoded key. */
  lemma {:induction false} EventsOfConcat(front: seq<Record>, back: seq<Record>)
    ensures EventsOf(front + back) == EventsOf(front) + EventsOf(back)
    ensures EventsOf([Record(None)]) == []
    ensures forall bucket, key ::
      EventsOf([Record(Some(S3Section(bucket, key)))]) == [ObjectCreatedEvent(bucket, UnquotePlus(key))]
  {
    assert forall r: Record :: EventsOf([r][1..]) == [];
    if front == [] {
      assert front + back == back;
    } else {
      assert (front + back)[1..] == front[1..] + back;
      EventsOfConcat(front[1..], back);
    }
  }

  method ParseObjectCreatedEvents(body: Body) returns (events: seq<ObjectCreatedEvent>)
    ensures events == ParsedEvents(body)
  {
    var records := if body.records.None? then [] else body.records.value;
    events := [];
    for i := 0 to |records|
      invariant events == EventsOf(records[..i])
    {
      assert records[..i + 1] == records[..i] + [records[i]];
      EventsOfAppend(records[..i], records[i]);
      var s3 := records[i].s3;
      if s3.None? {
        continue;
      }
      events := events + [ObjectCreatedEvent(s3.value.bucket, UnquotePlus(s3.value.quotedKey))];
    }
    assert records[..|records|] == records;
  }

  function BuildObjectCreatedMessage(bucket: string, key: string): Body
    requires IsBytes(key)
  {
    Body(Some([Record(Some(S3Section(bucket, QuotePlus(key))))]))
  }

  /** A synthetic message is read back as exactly the one event it was built for. */
  lemma MessageRoundTrip(bucket: string, key: string)
    requires IsBytes(key)
    ensures ParsedEvents(BuildObjectCreatedMessage(bucket, key)) == [ObjectCreatedEvent(bucket, key)]
  {
    QuoteRoundTrip(key);
    var records := BuildObjectCreatedMessage(bucket, key).records.value;
    assert EventsOf(records[1..]) == [];
  }
}
