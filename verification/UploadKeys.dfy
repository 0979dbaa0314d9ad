/** Upload object keys: how the API builds them and how the shim reads a video ID back.
    A key is a UTF-8 byte string; each `char` of it stands for one byte. */
module UploadKeys {
  import opened Options
  import opened VideoIds

  const UPLOADS := "uploads/"
  const ORIGINAL := "/original"
  const BACKSLASH := "\\"
  const NEWLINE := "\n"

  predicate IsAlnum(c: char) {
    IsDigit(c) || 'a' <= c <= 'z' || 'A' <= c <= 'Z'
  }

  // ---- Building a key ----

  /** Index of the last dot, or -1. */
  function LastDot(s: string): (i: int)
    ensures -1 <= i < |s|
    ensures i >= 0 ==> s[i] == '.'
    ensures forall k :: i < k < |s| ==> s[k] != '.'
  {
    if s == "" then -1
    else if s[|s| - 1] == '.' then |s| - 1
    else LastDot(s[..|s| - 1])
  }

  /** PurePath(name).suffix of a basename in Python 3.14: from the last dot on, unless only
      dots come before it. */
  function Suffix(name: string): string {
    var i := LastDot(name);
    if i >= 0 && exists k :: 0 <= k < i && name[k] != '.' then name[i..] else ""
  }

  /** CreateVideoRequest.validate_filename: a basename with an extension. */
  predicate ValidFilename(name: string) {
    name != "" && '/' !in name && Suffix(name) != ""
  }

  function BuildUploadObjectKey(id: VideoId, filename: string): string {
    UPLOADS + Text(id) + ORIGINAL + Suffix(filename)
  }

  // ---- The key pattern ----

  /** One dot and at least one letter or digit: the pattern's optional extension group. */
  predicate IsExtension(s: string) {
    |s| >= 2 && s[0] == '.' && forall i :: 1 <= i < |s| ==> IsAlnum(s[i])
  }

  /** s.removesuffix(end) for a one-character `end`. */
  function RemoveSuffix(s: string, end: char): string {
    if s != "" && s[|s| - 1] == end then s[..|s| - 1] else s
  }

  /** What may follow "/original". The end anchor of the pattern also matches just before a
      final newline, so one is tolerated. */
  predicate TailMatches(tail: string) {
    var ext := RemoveSuffix(RemoveSuffix(tail, '\n'), '\\');
    ext == "" || IsExtension(ext)
  }

  function ParseVideoIdFromKey(key: string): Option<VideoId> {
    if |key| >= 53 && key[..8] == UPLOADS && HasUuidShape(key[8..44]) && key[44..53] == ORIGINAL &&
      TailMatches(key[53..])
    then Some(FromText(key[8..44]))
    else None
  }

  /** The same tail read off the pattern: extension, backslash and newline, each optional. */
  ghost predicate InTailLanguage(tail: string) {
    exists ext, slash, newline ::
      && (ext == "" || IsExtension(ext))
      && (slash == "" || slash == BACKSLASH)
      && (newline == "" || newline == NEWLINE)
      && tail == ext + slash + newline
  }

  /** A key the pattern matches with the given `video_id` group. */
  ghost predicate InKeyLanguage(key: string, group: string) {
    HasUuidShape(group) && exists tail :: InTailLanguage(tail) && key == UPLOADS + group + ORIGINAL + tail
  }

  lemma StripAppended(s: string, end: char)
    ensures RemoveSuffix(s + [end], end) == s
  {
    assert (s + [end])[..|s|] == s;
  }

  lemma TailLanguage(ext: string, slash: string, newline: string)
    requires ext == "" || IsExtension(ext)
    requires slash == "" || slash == BACKSLASH
    requires newline == "" || newline == NEWLINE
    ensures TailMatches(ext + slash + newline)
  {
    var body := ext + slash;
    assert RemoveSuffix(body, '\\') == ext by {
      if slash == "" {
        assert body == ext;
      } else {
        assert body == ext + ['\\'];
        StripAppended(ext, '\\');
      }
    }
    if newline == "" {
      assert body + newline == body;
      assert body != "" ==> body[|body| - 1] != '\n';
    } else {
      assert body + newline == body + ['\n'];
      StripAppended(body, '\n');
    }
  }

  lemma TailAgreesWithPattern(tail: string)
    ensures TailMatches(tail) <==> InTailLanguage(tail)
  {
    if TailMatches(tail) {
      var body := RemoveSuffix(tail, '\n');
      var ext := RemoveSuffix(body, '\\');
      var newline := if body == tail then "" else NEWLINE;
      var slash := if ext == body then "" else BACKSLASH;
      assert tail == body + newline;
      assert body == ext + slash;
    }
    if ext, slash, newline :|
      && (ext == "" || IsExtension(ext))
      && (slash == "" || slash == BACKSLASH)
      && (newline == "" || newline == NEWLINE)
      && tail == ext + slash + newline
    {
      TailLanguage(ext, slash, newline);
    }
  }

  /** The parser accepts exactly the pattern's language and returns the ID of its group. */
  lemma ParseAgreesWithPattern(key: string, id: VideoId)
    ensures ParseVideoIdFromKey(key) == Some(id)
       <==> exists group :: InKeyLanguage(key, group) && FromText(group) == id
  {
    hide FromText, TailMatches, InTailLanguage, AllHex;
    if ParseVideoIdFromKey(key) == Some(id) {
      TailAgreesWithPattern(key[53..]);
      assert key == UPLOADS + key[8..44] + ORIGINAL + key[53..];
      assert InKeyLanguage(key, key[8..44]) && FromText(key[8..44]) == id;
    }
    if group :| InKeyLanguage(key, group) && FromText(group) == id {
      var tail :| InTailLanguage(tail) && key == UPLOADS + group + ORIGINAL + tail;
      TailAgreesWithPattern(tail);
      KeyParts(group, tail);
    }
  }

  lemma KeyParts(group: string, tail: string)
    requires |group| == 36
    ensures var key := UPLOADS + group + ORIGINAL + tail;
      |key| == 53 + |tail| && key[..8] == UPLOADS && key[8..44] == group && key[44..53] == ORIGINAL && key[53..] == tail
  {
  }

  /** Nothing outside the uploads prefix is ever taken for an upload. */
  lemma OnlyUploadsParse(key: string, id: VideoId)
    requires ParseVideoIdFromKey(key) == Some(id)
    ensures UPLOADS <= key && UPLOADS == "uploads/"
  {
    assert key[..8] == UPLOADS;
  }

  // ---- Round trip ----

  /** The built key parses back to its ID exactly when its suffix is one the pattern knows. */
  lemma KeyRoundTrip(id: VideoId, filename: string)
    ensures ParseVideoIdFromKey(BuildUploadObjectKey(id, filename))
         == if TailMatches(Suffix(filename)) then Some(id) else None
  {
    KeyParts(Text(id), Suffix(filename));
    TextRoundTrip(id);
  }

  /** _resolve_video_id against the stored keys of the `videos` table. */
  function ResolveVideoId(stored: map<VideoId, string>, key: string): Option<VideoId> {
    match ParseVideoIdFromKey(key)
    case None => None
    case Some(id) => if id in stored && RemoveSuffix(key, '\\') == stored[id] then Some(id) else None
  }

  /** A resolved event is about a known video and names that video's own stored key, up to
      one trailing backslash. */
  lemma ResolveIsSound(stored: map<VideoId, string>, key: string, id: VideoId)
    requires ResolveVideoId(stored, key) == Some(id)
    ensures id in stored && (key == stored[id] || key == stored[id] + BACKSLASH)
  {
    if RemoveSuffix(key, '\\') != key {
      assert key == key[..|key| - 1] + BACKSLASH;
    }
  }

  lemma TailWithoutBackslash(tail: string)
    requires TailMatches(tail + BACKSLASH)
    ensures TailMatches(tail) && RemoveSuffix(tail, '\\') == tail
  {
    var whole := tail + ['\\'];
    assert tail + BACKSLASH == whole && whole[|whole| - 1] == '\\';
    StripAppended(tail, '\\');
    assert tail == "" || IsExtension(tail);
    TailLanguage(tail, "", "");
    assert tail + "" + "" == tail;
  }

  lemma ParseWithoutBackslash(key: string)
    requires ParseVideoIdFromKey(key + BACKSLASH).Some?
    ensures ParseVideoIdFromKey(key) == ParseVideoIdFromKey(key + BACKSLASH) && RemoveSuffix(key, '\\') == key
  {
    hide TailMatches, HasUuidShape, FromText;
    var long := key + BACKSLASH;
    assert long[52] == long[44..53][8] == 'l' && long[|long| - 1] == '\\';
    var tail := key[53..];
    assert long[..8] == key[..8] && long[8..44] == key[8..44] && long[44..53] == key[44..53];
    assert long[53..] == tail + BACKSLASH;
    TailWithoutBackslash(tail);
    if |tail| == 0 {
      assert key[|key| - 1] == key[44..53][8];
    } else {
      assert key[|key| - 1] == tail[|tail| - 1];
    }
  }

  /** If any key resolves to a video, its stored key does. */
  lemma StoredKeyResolves(stored: map<VideoId, string>, key: string, id: VideoId)
    requires ResolveVideoId(stored, key) == Some(id)
    ensures id in stored && ResolveVideoId(stored, stored[id]) == Some(id)
  {
    hide ParseVideoIdFromKey;
    ResolveIsSound(stored, key, id);
    if key != stored[id] {
      ParseWithoutBackslash(stored[id]);
    }
  }

  /** Whether a key resolves to a video depends on that video's row alone, so it never changes. */
  lemma ResolveIsLocal(stored: map<VideoId, string>, more: map<VideoId, string>, key: string, id: VideoId)
    requires id in stored && id in more && more[id] == stored[id]
    ensures ResolveVideoId(stored, key) == Some(id) <==> ResolveVideoId(more, key) == Some(id)
  {
  }

  /** The suffixes whose uploads the shim recognises: the pattern's, but not one that itself
      ends in a backslash, because the shim strips that before comparing. */
  predicate Accepted(suffix: string) {
    TailMatches(suffix) && RemoveSuffix(suffix, '\\') == suffix
  }

  lemma KeyWithoutBackslash(id: VideoId, filename: string)
    ensures var key := BuildUploadObjectKey(id, filename);
      RemoveSuffix(key, '\\') == key <==> RemoveSuffix(Suffix(filename), '\\') == Suffix(filename)
  {
    var key, suffix := BuildUploadObjectKey(id, filename), Suffix(filename);
    if suffix == "" {
      assert key[|key| - 1] == 'l';
    } else {
      assert key[|key| - 1] == suffix[|suffix| - 1];
    }
  }

  /** The event for a built key resolves to its video exactly when the suffix is accepted. */
  lemma UploadIsRecognised(stored: map<VideoId, string>, id: VideoId, filename: string)
    requires id in stored && stored[id] == BuildUploadObjectKey(id, filename)
    ensures ResolveVideoId(stored, stored[id]) == if Accepted(Suffix(filename)) then Some(id) else None
  {
    KeyRoundTrip(id, filename);
    KeyWithoutBackslash(id, filename);
  }

  /** The same for the key an emulator reports with one backslash added. */
  lemma EmulatorUploadIsRecognised(stored: map<VideoId, string>, id: VideoId, filename: string)
    requires id in stored && stored[id] == BuildUploadObjectKey(id, filename)
    ensures var suffix := Suffix(filename);
      ResolveVideoId(stored, stored[id] + BACKSLASH)
      == if suffix == "" || IsExtension(suffix) then Some(id) else None
  {
    var suffix := Suffix(filename);
    var key := stored[id] + BACKSLASH;
    KeyParts(Text(id), suffix + BACKSLASH);
    assert key == UPLOADS + Text(id) + ORIGINAL + (suffix + BACKSLASH);
    TextRoundTrip(id);
    assert RemoveSuffix(suffix + BACKSLASH, '\n') == suffix + BACKSLASH;
    assert RemoveSuffix(suffix + BACKSLASH, '\\') == suffix;
    assert RemoveSuffix(key, '\\') == stored[id];
  }

  /** A plain extension is accepted, so every upload named `<stem>.<letters and digits>` is. */
  lemma PlainExtensionIsAccepted(suffix: string)
    requires IsExtension(suffix)
    ensures Accepted(suffix)
  {
    TailLanguage(suffix, "", "");
    assert suffix + "" + "" == suffix;
  }

  /** The suffix of `<stem>.<ext>`, for any stem that is not only dots. */
  lemma SuffixOf(stem: string, ext: string)
    requires '.' !in ext && exists k :: 0 <= k < |stem| && stem[k] != '.'
    ensures Suffix(stem + "." + ext) == "." + ext
  {
    var name := stem + "." + ext;
    var k :| 0 <= k < |stem| && stem[k] != '.';
    assert name[|stem|] == '.' && name[k] != '.';
    assert forall i :: |stem| < i < |name| ==> name[i] == ext[i - |stem| - 1];
    assert LastDot(name) == |stem|;
    assert name[|stem|..] == "." + ext;
  }

  /** The dot of a name without one, or of a name with only dots before it, starts no suffix. */
  lemma NoSuffix(dots: string, ext: string)
    requires (forall i :: 0 <= i < |dots| ==> dots[i] == '.') && '.' !in ext
    ensures Suffix(dots + ext) == ""
  {
    var name := dots + ext;
    assert forall i :: |dots| <= i < |name| ==> name[i] == ext[i - |dots|];
  }

  /** The names validation accepts: basenames with a dot that something other than dots precedes. */
  lemma ValidFilenameIff(name: string)
    ensures ValidFilename(name) <==>
      && '/' !in name
      && exists i, k :: 0 <= k < i < |name| && name[k] != '.' && name[i] == '.'
  {
    var i := LastDot(name);
    if i >= 0 && exists k :: 0 <= k < i && name[k] != '.' {
      var k :| 0 <= k < i && name[k] != '.';
      assert name[i] == '.';
    }
  }

  lemma PlainExtension(ext: string)
    requires ext != "" && forall c :: c in ext ==> '0' <= c <= '9' || 'a' <= c <= 'z' || 'A' <= c <= 'Z'
    ensures IsExtension("." + ext) && '.' !in ext && '/' !in ext
  {
    forall i | 1 <= i < |"." + ext| ensures IsAlnum(("." + ext)[i]) {
      assert ("." + ext)[i] == ext[i - 1] && ext[i - 1] in ext;
    }
  }

  /** Every name `<stem>.<letters and digits>` passes validation, and its upload is recognised
      under its key and under the key with the backslash an emulator adds. */
  lemma PlainNamesAreRecognised(stored: map<VideoId, string>, id: VideoId, stem: string, ext: string)
    requires '/' !in stem && (exists k :: 0 <= k < |stem| && stem[k] != '.') && ext != ""
    requires forall c :: c in ext ==> '0' <= c <= '9' || 'a' <= c <= 'z' || 'A' <= c <= 'Z'
    requires id in stored && stored[id] == BuildUploadObjectKey(id, stem + "." + ext)
    ensures ValidFilename(stem + "." + ext)
    ensures ResolveVideoId(stored, stored[id]) == ResolveVideoId(stored, stored[id] + BACKSLASH) == Some(id)
  {
    hide ResolveVideoId, BuildUploadObjectKey, Accepted, Suffix;
    PlainExtension(ext);
    SuffixOf(stem, ext);
    PlainExtensionIsAccepted("." + ext);
    UploadIsRecognised(stored, id, stem + "." + ext);
    EmulatorUploadIsRecognised(stored, id, stem + "." + ext);
  }

  /** Any other extension is dropped, but for one newline, or a backslash and one newline, after
      the letters and digits. */
  lemma OtherNamesAreDropped(stored: map<VideoId, string>, id: VideoId, stem: string, ext: string)
    requires '/' !in stem && (exists k :: 0 <= k < |stem| && stem[k] != '.') && '.' !in ext
    requires id in stored && stored[id] == BuildUploadObjectKey(id, stem + "." + ext)
    requires ResolveVideoId(stored, stored[id]) == Some(id)
    ensures exists plain, rest ::
      && ext == plain + rest && rest in {"", NEWLINE, BACKSLASH + NEWLINE} && plain != ""
      && forall c :: c in plain ==> '0' <= c <= '9' || 'a' <= c <= 'z' || 'A' <= c <= 'Z'
  {
    hide ResolveVideoId, BuildUploadObjectKey, Suffix;
    SuffixOf(stem, ext);
    UploadIsRecognised(stored, id, stem + "." + ext);
    AcceptedTail("." + ext);
    var plain, rest :| "." + ext == plain + rest && rest in {"", NEWLINE, BACKSLASH + NEWLINE} && IsExtension(plain);
    assert ext == ("." + ext)[1..] == plain[1..] + rest;
    forall c | c in plain[1..] ensures '0' <= c <= '9' || 'a' <= c <= 'z' || 'A' <= c <= 'Z' {
      var i :| 0 <= i < |plain[1..]| && plain[1..][i] == c;
      assert plain[i + 1] == c;
    }
  }

  lemma AcceptedTail(suffix: string)
    requires Accepted(suffix) && suffix != "" && suffix[0] == '.'
    ensures exists plain, rest ::
      suffix == plain + rest && rest in {"", NEWLINE, BACKSLASH + NEWLINE} && IsExtension(plain)
  {
    var body := RemoveSuffix(suffix, '\n');
    var plain := RemoveSuffix(body, '\\');
    assert body != "" && body[0] == '.';
    assert plain != "" && plain[0] == '.';
    if body == suffix {
      assert suffix == plain + "";
    } else if plain == body {
      assert suffix == plain + NEWLINE;
    } else {
      assert suffix == plain + (BACKSLASH + NEWLINE);
    }
  }

  /** A built key's last component is "original" with the name's own suffix. */
  lemma KeyKeepsSuffix(id: VideoId, filename: string)
    requires Suffix(filename) != ""
    ensures var key := BuildUploadObjectKey(id, filename);
      && |key| > 45 && key[44] == '/' && '/' !in key[45..53] && key[45..53] == "original"
      && key[53..] == Suffix(filename) && Suffix(key[45..]) == Suffix(filename)
  {
    hide Suffix, Text;
    var key, suffix := BuildUploadObjectKey(id, filename), Suffix(filename);
    KeyParts(Text(id), suffix);
    assert key[44] == key[44..53][0] == '/';
    assert key[45..53] == key[44..53][1..] == "original";
    assert key[45..] == key[45..53] + key[53..] == "original" + suffix;
    OriginalKeepsSuffix(filename);
  }

  lemma OriginalKeepsSuffix(filename: string)
    requires Suffix(filename) != ""
    ensures Suffix("original" + Suffix(filename)) == Suffix(filename)
  {
    hide Suffix;
    var suffix := Suffix(filename);
    SuffixStartsAtLastDot(filename);
    assert suffix == "." + suffix[1..];
    assert "original"[0] != '.';
    SuffixOf("original", suffix[1..]);
    assert "original" + "." + suffix[1..] == "original" + suffix;
  }

  lemma SuffixStartsAtLastDot(filename: string)
    requires Suffix(filename) != ""
    ensures Suffix(filename)[0] == '.' && '.' !in Suffix(filename)[1..]
  {
  }

  lemma DroppedSuffixes()
    ensures !Accepted(".m_4") && !Accepted(".") && !Accepted(".mp4\\")
  {
    assert ".m_4"[2] == '_';
    assert !IsExtension(".m_4") && !IsExtension(".");
    assert RemoveSuffix(".mp4\\", '\\') == ".mp4";
  }

  /** Request validation lets through names whose uploads the shim then ignores. */
  lemma ValidNamesThatAreDropped(stored: map<VideoId, string>, id: VideoId, ext: string)
    requires ext == "m_4" || ext == "" || ext == "mp4\\"
    requires id in stored && stored[id] == BuildUploadObjectKey(id, "clip." + ext)
    ensures ValidFilename("clip." + ext) && ResolveVideoId(stored, stored[id]) == None
  {
    hide ResolveVideoId, BuildUploadObjectKey, Accepted, Suffix;
    assert "clip"[0] != '.';
    SuffixOf("clip", ext);
    assert "clip" + "." + ext == "clip." + ext;
    UploadIsRecognised(stored, id, "clip." + ext);
    DroppedSuffixes();
    assert "." + ext == ".m_4" || "." + ext == "." || "." + ext == ".mp4\\";
  }
}
