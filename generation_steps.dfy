/**
 * The steps both `generateAlt` handlers share: qualifying a relative image
 * URL, choosing the media type, filling the prompt's placeholders, and
 * turning the vision model's reply into the suggested alt text; plus the
 * re-encode threshold of the bundled handler.
 */
module GenerationSteps {
  import opened Common
  import opened Text
  import opened Vision
  import Plugin

  /** The request body `{ imageId?, imageUrl?, filename? }`; `None` is an absent key. */
  datatype GenerateBody = GenerateBody(imageId: Option<string>, imageUrl: Option<string>, filename: Option<string>)

  /** The request headers the handlers read; `None` is a missing header. */
  datatype Headers = Headers(forwardedProto: Option<string>, host: Option<string>)

  /**
   * What `fetch(url)` resolved to: `ok`, `status` and the `content-type`
   * header, plus what the bundled handler learns from the bytes (their
   * length, and the width and height image metadata reports, if any).
   */
  datatype ImageReply = ImageReply(ok: bool, status: nat, contentType: Option<string>,
                                   byteLength: nat, width: Option<nat>, height: Option<nat>)

  /** One block of `message.content`. */
  datatype ContentBlock = TextBlock(text: string) | OtherBlock

  /**
   * One `anthropic.messages.create` request: the environment key the client
   * is made with, the model, `max_tokens`, the fetched image (its URL and
   * whether it was re-encoded), its media type and the prompt.
   */
  datatype MessageCall = MessageCall(apiKey: Option<string>, model: string, maxTokens: nat,
                                     imageUrl: string, resized: bool, mediaType: string, prompt: string)

  /** A URL starting with '/' gets `protocol://host` in front; any other URL is used as it is. */
  function QualifyUrl(imageUrl: string, headers: Headers): (r: string)
    ensures !StartsWith(imageUrl, "/") ==> r == imageUrl
    ensures StartsWith(imageUrl, "/") ==>
              r == OrText(headers.forwardedProto, "http") + "://" + OrText(headers.host, "localhost:3000") + imageUrl
  {
    if StartsWith(imageUrl, "/") then
      OrText(headers.forwardedProto, "http") + "://" + OrText(headers.host, "localhost:3000") + imageUrl
    else imageUrl
  }

  /**
   * Qualifying is idempotent when the protocol header does not itself start
   * with '/': the qualified URL is absolute, so it is left alone the second time.
   */
  lemma QualifyUrlIdempotent(imageUrl: string, headers: Headers)
    requires headers.forwardedProto.Some? && headers.forwardedProto.value != "" ==> headers.forwardedProto.value[0] != '/'
    ensures QualifyUrl(QualifyUrl(imageUrl, headers), headers) == QualifyUrl(imageUrl, headers)
    ensures EndsWith(QualifyUrl(imageUrl, headers), imageUrl)
  {
    var q := QualifyUrl(imageUrl, headers);
    if StartsWith(imageUrl, "/") {
      var proto := OrText(headers.forwardedProto, "http");
      assert q[0] == proto[0] != '/';
      assert q[|q| - |imageUrl|..] == imageUrl;
    } else {
      assert q[|q| - |imageUrl|..] == imageUrl;
    }
  }

  const MediaTypes: set<string> := {"image/jpeg", "image/png", "image/gif", "image/webp"}

  /** The media type named by the `content-type` header: png, else webp, else gif, else jpeg. */
  function MediaTypeOf(contentType: Option<string>): (r: string)
    ensures r in MediaTypes
    ensures r == "image/png" <==> Contains(GetOr(contentType, ""), "png")
    ensures r == "image/webp" <==> !Contains(GetOr(contentType, ""), "png") && Contains(GetOr(contentType, ""), "webp")
    ensures r == "image/gif" <==> !Contains(GetOr(contentType, ""), "png") && !Contains(GetOr(contentType, ""), "webp")
                                  && Contains(GetOr(contentType, ""), "gif")
  {
    var ct := GetOr(contentType, "");
    if Contains(ct, "png") then "image/png"
    else if Contains(ct, "webp") then "image/webp"
    else if Contains(ct, "gif") then "image/gif"
    else "image/jpeg"
  }

  const MaxImageBytes: nat := 4 * 1024 * 1024
  const MaxDimension: nat := 7500

  /** `needsResize`: more than 4 MiB, or a known width or height above 7500 pixels. */
  predicate NeedsResize(image: ImageReply)
  {
    || image.byteLength > MaxImageBytes
    || (image.width.Some? && image.width.value > MaxDimension)
    || (image.height.Some? && image.height.value > MaxDimension)
  }

  /** The bundled handler's media type: a re-encoded image is always JPEG. */
  function MediaTypeAfterResize(image: ImageReply): (r: string)
    ensures r in MediaTypes
    ensures NeedsResize(image) ==> r == "image/jpeg"
    ensures !NeedsResize(image) ==> r == MediaTypeOf(image.contentType)
  {
    if NeedsResize(image) then "image/jpeg" else MediaTypeOf(image.contentType)
  }

  /** A small image within the dimension limit keeps the media type of its `content-type`. */
  lemma SmallImageKeepsType(image: ImageReply)
    requires image.byteLength <= 4194304
    requires image.width.None? || image.width.value <= 7500
    requires image.height.None? || image.height.value <= 7500
    ensures MediaTypeAfterResize(image) == MediaTypeOf(image.contentType)
  {
  }

  /**
   * The prompt: every "{filename}" becomes the filename (or "unknown"), then
   * every "{maxLength}" the decimal length limit, then every "{language}"
   * the language, each pass over the result of the previous one.
   */
  function BuildPrompt(template: string, filename: Option<string>, maxLength: nat, language: string): string
  {
    var withName := ReplaceAll(template, "{filename}", OrText(filename, "unknown"));
    var withLength := ReplaceAll(withName, "{maxLength}", NatToString(maxLength));
    ReplaceAll(withLength, "{language}", language)
  }

  /** The three placeholders a prompt template may hold. */
  datatype Slot = FilenameSlot | MaxLengthSlot | LanguageSlot

  /** How each placeholder is spelled in a template. */
  datatype Marks = Marks(filename: string, maxLength: string, language: string)

  /** The spellings `BuildPrompt` replaces. */
  const Placeholders: Marks := Marks("{filename}", "{maxLength}", "{language}")

  function SlotText(slot: Slot, marks: Marks): string
  {
    match slot
    case FilenameSlot => marks.filename
    case MaxLengthSlot => marks.maxLength
    case LanguageSlot => marks.language
  }

  /** A spelling that opens with '{' and holds no other '{'. */
  predicate Mark(p: string)
  {
    |p| >= 2 && p[0] == '{' && '{' !in p[1..]
  }

  /** Spellings a left-to-right scan tells apart: each is a mark, and they differ in their second character. */
  predicate WellMarked(marks: Marks)
  {
    && Mark(marks.filename) && Mark(marks.maxLength) && Mark(marks.language)
    && marks.filename[1] != marks.maxLength[1]
    && marks.filename[1] != marks.language[1]
    && marks.maxLength[1] != marks.language[1]
  }

  /** The placeholders of the plugin are told apart by their second letters 'f', 'm' and 'l'. */
  lemma PlaceholdersWellMarked()
    ensures WellMarked(Placeholders)
  {
    MarkSpelled("filename");
    MarkSpelled("maxLength");
    MarkSpelled("language");
  }

  lemma MarkSpelled(name: string)
    requires |name| >= 1 && '{' !in name
    ensures Mark("{" + name + "}") && ("{" + name + "}")[1] == name[0]
  {
    var p := "{" + name + "}";
    assert p[1..] == name + "}";
  }

  /** A prompt template seen as literal text and placeholders. */
  datatype Piece = Lit(text: string) | Hole(slot: Slot)

  /** The text one piece spells. */
  function PieceText(piece: Piece, marks: Marks): string
  {
    match piece
    case Lit(t) => t
    case Hole(s) => SlotText(s, marks)
  }

  /** The template text the pieces spell. */
  function Render(ps: seq<Piece>, marks: Marks): string
  {
    if ps == [] then [] else PieceText(ps[0], marks) + Render(ps[1..], marks)
  }

  /** No literal piece holds a '{', so no placeholder is hidden in the literal text. */
  predicate PlainPieces(ps: seq<Piece>)
  {
    forall i :: 0 <= i < |ps| ==> ps[i].Lit? ==> '{' !in ps[i].text
  }

  /** A `slot` placeholder turned into the literal `v`; any other piece is kept. */
  function FillPiece(piece: Piece, slot: Slot, v: string): Piece
  {
    if piece == Hole(slot) then Lit(v) else piece
  }

  /** The pieces with every `slot` placeholder turned into the literal `v`. */
  function FillSlot(ps: seq<Piece>, slot: Slot, v: string): seq<Piece>
  {
    if ps == [] then [] else [FillPiece(ps[0], slot, v)] + FillSlot(ps[1..], slot, v)
  }

  /** What one piece stands for in the intended prompt. */
  function PieceValue(piece: Piece, filename: string, maxLength: string, language: string): string
  {
    match piece
    case Lit(t) => t
    case Hole(FilenameSlot) => filename
    case Hole(MaxLengthSlot) => maxLength
    case Hole(LanguageSlot) => language
  }

  /** The intended prompt: each placeholder stands for its value, the literal text for itself. */
  function Filled(ps: seq<Piece>, filename: string, maxLength: string, language: string): string
  {
    if ps == [] then []
    else PieceValue(ps[0], filename, maxLength, language) + Filled(ps[1..], filename, maxLength, language)
  }

  /** Each placeholder starts with '{'. */
  lemma SlotStart(slot: Slot, marks: Marks)
    requires WellMarked(marks)
    ensures SlotText(slot, marks) != [] && |SlotText(slot, marks)| >= 2 && SlotText(slot, marks)[0] == '{'
  {
  }

  /** Each placeholder holds no '{' after its first character, and differs from the others in its second. */
  lemma SlotShape(slot: Slot, other: Slot, marks: Marks)
    requires WellMarked(marks)
    ensures |SlotText(slot, marks)| >= 2 && SlotText(slot, marks)[0] == '{'
    ensures forall k :: 1 <= k < |SlotText(slot, marks)| ==> SlotText(slot, marks)[k] != '{'
    ensures other != slot ==> SlotText(other, marks)[1] != SlotText(slot, marks)[1]
  {
    var p := SlotText(slot, marks);
    forall k | 1 <= k < |p| ensures p[k] != '{' {
      assert p[k] == p[1..][k - 1];
    }
  }

  /**
   * One pass fills one placeholder: for a filling without '$', replacing
   * `slot` in the rest of the input spelled by `ps` gives the pieces with
   * that placeholder filled.
   */
  lemma {:induction false} PassFillsFrom(s: string, i: nat, ps: seq<Piece>, slot: Slot, v: string, marks: Marks)
    requires WellMarked(marks) && PlainPieces(ps) && '$' !in v
    requires i <= |s| && s[i..] == Render(ps, marks)
    ensures ReplaceFrom(s, i, SlotText(slot, marks), v) == Render(FillSlot(ps, slot, v), marks)
    decreases |ps|
  {
    SlotStart(slot, marks);
    if ps == [] {
      ReplaceFromShort(s, i, SlotText(slot, marks), v);
    } else {
      var n := |PieceText(ps[0], marks)|;
      PiecesCons(s, i, ps, marks);
      PieceStep(s, i, ps[0], slot, v, marks);
      PassFillsFrom(s, i + n, ps[1..], slot, v, marks);
      FillSlotCons(ps, slot, v, marks);
      Glue(ReplaceFrom(s, i, SlotText(slot, marks), v), PieceText(FillPiece(ps[0], slot, v), marks),
           ReplaceFrom(s, i + n, SlotText(slot, marks), v), Render(FillSlot(ps[1..], slot, v), marks),
           Render(FillSlot(ps, slot, v), marks));
    }
  }

  /** Equal texts may be swapped inside a concatenation. */
  lemma Glue(x: string, y: string, z: string, w: string, u: string)
    requires x == y + z && z == w && u == y + w
    ensures x == u
  {
  }

  lemma RenderCons(piece: Piece, ps: seq<Piece>, marks: Marks)
    ensures Render([piece] + ps, marks) == PieceText(piece, marks) + Render(ps, marks)
  {
    assert ([piece] + ps)[1..] == ps;
  }

  /** The filled pieces of a non-empty template spell the first filled piece and then the rest. */
  lemma FillSlotCons(ps: seq<Piece>, slot: Slot, v: string, marks: Marks)
    requires ps != []
    ensures Render(FillSlot(ps, slot, v), marks)
            == PieceText(FillPiece(ps[0], slot, v), marks) + Render(FillSlot(ps[1..], slot, v), marks)
  {
    assert FillSlot(ps, slot, v) == [FillPiece(ps[0], slot, v)] + FillSlot(ps[1..], slot, v);
    RenderCons(FillPiece(ps[0], slot, v), FillSlot(ps[1..], slot, v), marks);
  }

  /** How a non-empty template splits into its first piece and the rest. */
  lemma PiecesCons(s: string, i: nat, ps: seq<Piece>, marks: Marks)
    requires ps != [] && PlainPieces(ps)
    requires i <= |s| && s[i..] == Render(ps, marks)
    ensures ps[0].Lit? ==> '{' !in ps[0].text
    ensures PlainPieces(ps[1..])
    ensures i + |PieceText(ps[0], marks)| <= |s|
    ensures s[i..i + |PieceText(ps[0], marks)|] == PieceText(ps[0], marks)
    ensures s[i + |PieceText(ps[0], marks)|..] == Render(ps[1..], marks)
  {
    var n := |PieceText(ps[0], marks)|;
    assert s[i..i + n] == s[i..][..n];
    assert s[i + n..] == s[i..][n..];
    assert PlainPieces(ps[1..]) by {
      forall j | 0 <= j < |ps| - 1 ensures ps[1..][j] == ps[j + 1] { }
    }
  }

  /** The scan over one piece: a literal or another placeholder is copied, a `slot` placeholder filled. */
  lemma PieceStep(s: string, i: nat, piece: Piece, slot: Slot, v: string, marks: Marks)
    requires piece.Lit? ==> '{' !in piece.text
    requires WellMarked(marks) && '$' !in v
    requires i + |PieceText(piece, marks)| <= |s| && s[i..i + |PieceText(piece, marks)|] == PieceText(piece, marks)
    ensures ReplaceFrom(s, i, SlotText(slot, marks), v)
            == PieceText(FillPiece(piece, slot, v), marks) + ReplaceFrom(s, i + |PieceText(piece, marks)|, SlotText(slot, marks), v)
  {
    if piece.Lit? {
      LiteralStep(s, i, piece, slot, v, marks);
    } else if piece.slot == slot {
      FillStep(s, i, piece, slot, v, marks);
    } else {
      OtherStep(s, i, piece, slot, v, marks);
    }
  }

  lemma LiteralStep(s: string, i: nat, piece: Piece, slot: Slot, v: string, marks: Marks)
    requires piece.Lit? && '{' !in piece.text
    requires WellMarked(marks) && '$' !in v
    requires i + |PieceText(piece, marks)| <= |s| && s[i..i + |PieceText(piece, marks)|] == PieceText(piece, marks)
    ensures ReplaceFrom(s, i, SlotText(slot, marks), v)
            == PieceText(FillPiece(piece, slot, v), marks) + ReplaceFrom(s, i + |PieceText(piece, marks)|, SlotText(slot, marks), v)
  {
    var t := piece.text;
    assert PieceText(piece, marks) == t && PieceText(FillPiece(piece, slot, v), marks) == t;
    SlotStart(slot, marks);
    ReplaceFromLiteral(s, i, t, SlotText(slot, marks), v);
  }

  lemma FillStep(s: string, i: nat, piece: Piece, slot: Slot, v: string, marks: Marks)
    requires piece == Hole(slot)
    requires WellMarked(marks) && '$' !in v
    requires i + |PieceText(piece, marks)| <= |s| && s[i..i + |PieceText(piece, marks)|] == PieceText(piece, marks)
    ensures ReplaceFrom(s, i, SlotText(slot, marks), v)
            == PieceText(FillPiece(piece, slot, v), marks) + ReplaceFrom(s, i + |PieceText(piece, marks)|, SlotText(slot, marks), v)
  {
    assert PieceText(piece, marks) == SlotText(slot, marks) && PieceText(FillPiece(piece, slot, v), marks) == v;
    SlotStart(slot, marks);
    ReplaceFromFill(s, i, SlotText(slot, marks), v);
  }

  lemma OtherStep(s: string, i: nat, piece: Piece, slot: Slot, v: string, marks: Marks)
    requires piece.Hole? && piece.slot != slot
    requires WellMarked(marks) && '$' !in v
    requires i + |PieceText(piece, marks)| <= |s| && s[i..i + |PieceText(piece, marks)|] == PieceText(piece, marks)
    ensures ReplaceFrom(s, i, SlotText(slot, marks), v)
            == PieceText(FillPiece(piece, slot, v), marks) + ReplaceFrom(s, i + |PieceText(piece, marks)|, SlotText(slot, marks), v)
  {
    var other := piece.slot;
    assert PieceText(piece, marks) == SlotText(other, marks);
    assert PieceText(FillPiece(piece, slot, v), marks) == SlotText(other, marks);
    SlotShape(other, slot, marks);
    SlotShape(slot, other, marks);
    ReplaceFromOther(s, i, SlotText(slot, marks), SlotText(other, marks), v);
  }

  /** One pass of `replace` fills every occurrence of its placeholder and nothing else. */
  lemma PassFills(ps: seq<Piece>, slot: Slot, v: string, marks: Marks)
    requires WellMarked(marks) && PlainPieces(ps) && '{' !in v && '$' !in v
    ensures ReplaceAll(Render(ps, marks), SlotText(slot, marks), v) == Render(FillSlot(ps, slot, v), marks)
    ensures PlainPieces(FillSlot(ps, slot, v))
  {
    SlotStart(slot, marks);
    PassFillsFrom(Render(ps, marks), 0, ps, slot, v, marks);
    FillSlotPlain(ps, slot, v);
  }

  lemma {:induction false} FillSlotPlain(ps: seq<Piece>, slot: Slot, v: string)
    requires PlainPieces(ps) && '{' !in v
    ensures PlainPieces(FillSlot(ps, slot, v)) && |FillSlot(ps, slot, v)| == |ps|
    ensures forall i :: 0 <= i < |ps| ==> FillSlot(ps, slot, v)[i] == FillPiece(ps[i], slot, v)
    decreases ps
  {
    if ps != [] {
      FillSlotPlain(ps[1..], slot, v);
    }
  }

  /** Filling the three placeholders one after the other gives the intended prompt. */
  lemma {:induction false} ThreeFillsAreFilled(ps: seq<Piece>, f: string, m: string, l: string, marks: Marks)
    ensures Render(FillSlot(FillSlot(FillSlot(ps, FilenameSlot, f), MaxLengthSlot, m), LanguageSlot, l), marks)
            == Filled(ps, f, m, l)
    decreases ps
  {
    if ps != [] {
      ThreeFillsAreFilled(ps[1..], f, m, l, marks);
      var p1 := FillSlot(ps, FilenameSlot, f);
      var p2 := FillSlot(p1, MaxLengthSlot, m);
      var p3 := FillSlot(p2, LanguageSlot, l);
      assert p1[1..] == FillSlot(ps[1..], FilenameSlot, f);
      assert p2[1..] == FillSlot(p1[1..], MaxLengthSlot, m);
      assert p3[1..] == FillSlot(p2[1..], LanguageSlot, l);
    }
  }

  /** `String(n)` holds neither '{' nor '$'. */
  lemma DigitsArePlain(n: nat)
    ensures '{' !in NatToString(n) && '$' !in NatToString(n)
  {
    var r := NatToString(n);
    forall i | 0 <= i < |r| ensures r[i] != '{' && r[i] != '$' {
      assert '0' <= r[i] <= '9';
    }
  }

  /**
   * Every placeholder of the template is filled with its value and the
   * literal text is kept: "{filename}" with the filename or "unknown",
   * "{maxLength}" with the decimal limit and "{language}" with the
   * language, for a filename and a language free of '{' and '$'.
   */
  lemma PromptFilled(ps: seq<Piece>, filename: Option<string>, maxLength: nat, language: string)
    requires PlainPieces(ps)
    requires '{' !in OrText(filename, "unknown") && '$' !in OrText(filename, "unknown")
    requires '{' !in language && '$' !in language
    ensures BuildPrompt(Render(ps, Placeholders), filename, maxLength, language)
            == Filled(ps, OrText(filename, "unknown"), NatToString(maxLength), language)
  {
    var f, m := OrText(filename, "unknown"), NatToString(maxLength);
    PlaceholdersWellMarked();
    DigitsArePlain(maxLength);
    PassFills(ps, FilenameSlot, f, Placeholders);
    var p1 := FillSlot(ps, FilenameSlot, f);
    PassFills(p1, MaxLengthSlot, m, Placeholders);
    var p2 := FillSlot(p1, MaxLengthSlot, m);
    PassFills(p2, LanguageSlot, language, Placeholders);
    ThreeFillsAreFilled(ps, f, m, language, Placeholders);
  }

  /** Rendering one more piece appends its text. */
  lemma {:induction false} RenderSnoc(ps: seq<Piece>, piece: Piece, marks: Marks)
    ensures Render(ps + [piece], marks) == Render(ps, marks) + PieceText(piece, marks)
    decreases |ps|
  {
    if ps == [] {
      assert [] + [piece] == [piece] && [piece][1..] == [];
    } else {
      assert (ps + [piece])[1..] == ps[1..] + [piece];
      RenderSnoc(ps[1..], piece, marks);
    }
  }

  /** Filling one more piece appends its value. */
  lemma {:induction false} FilledSnoc(ps: seq<Piece>, piece: Piece, f: string, m: string, l: string)
    ensures Filled(ps + [piece], f, m, l) == Filled(ps, f, m, l) + PieceValue(piece, f, m, l)
    decreases |ps|
  {
    if ps == [] {
      assert [] + [piece] == [piece] && [piece][1..] == [];
    } else {
      assert (ps + [piece])[1..] == ps[1..] + [piece];
      FilledSnoc(ps[1..], piece, f, m, l);
    }
  }

  lemma RenderTriple(q: seq<Piece>, x: Piece, y: Piece, z: Piece, marks: Marks)
    ensures Render(q + [x] + [y] + [z], marks)
            == Render(q, marks) + PieceText(x, marks) + PieceText(y, marks) + PieceText(z, marks)
  {
    RenderSnoc(q, x, marks);
    RenderSnoc(q + [x], y, marks);
    RenderSnoc(q + [x] + [y], z, marks);
  }

  lemma FilledTriple(q: seq<Piece>, x: Piece, y: Piece, z: Piece, f: string, m: string, l: string)
    ensures Filled(q + [x] + [y] + [z], f, m, l)
            == Filled(q, f, m, l) + PieceValue(x, f, m, l) + PieceValue(y, f, m, l) + PieceValue(z, f, m, l)
  {
    FilledSnoc(q, x, f, m, l);
    FilledSnoc(q + [x], y, f, m, l);
    FilledSnoc(q + [x] + [y], z, f, m, l);
  }

  /** A template with one placeholder of each kind is filled in place. */
  lemma EachPlaceholderFilled(a: string, b: string, c: string, d: string, filename: string, maxLength: nat, language: string)
    requires '{' !in a && '{' !in b && '{' !in c && '{' !in d
    requires filename != "" && '{' !in filename && '$' !in filename && '{' !in language && '$' !in language
    ensures BuildPrompt(a + "{filename}" + b + "{maxLength}" + c + "{language}" + d, Some(filename), maxLength, language)
            == a + filename + b + NatToString(maxLength) + c + language + d
  {
    var ps := [Lit(a)] + [Hole(FilenameSlot)] + [Lit(b)] + [Hole(MaxLengthSlot)] + [Lit(c)] + [Hole(LanguageSlot)] + [Lit(d)];
    EachPlaceholderPieces(a, b, c, d, filename, NatToString(maxLength), language);
    PromptFilled(ps, Some(filename), maxLength, language);
  }

  /** The pieces of a template with one placeholder of each kind, spelled and filled. */
  lemma EachPlaceholderPieces(a: string, b: string, c: string, d: string, f: string, m: string, l: string)
    requires '{' !in a && '{' !in b && '{' !in c && '{' !in d
    ensures var ps := [Lit(a)] + [Hole(FilenameSlot)] + [Lit(b)] + [Hole(MaxLengthSlot)] + [Lit(c)] + [Hole(LanguageSlot)] + [Lit(d)];
            && PlainPieces(ps)
            && Render(ps, Placeholders) == a + "{filename}" + b + "{maxLength}" + c + "{language}" + d
            && Filled(ps, f, m, l) == a + f + b + m + c + l + d
  {
    var ps := [Lit(a)] + [Hole(FilenameSlot)] + [Lit(b)] + [Hole(MaxLengthSlot)] + [Lit(c)] + [Hole(LanguageSlot)] + [Lit(d)];
    assert PlainPieces(ps) by {
      forall j | 0 <= j < |ps| && ps[j].Lit? ensures '{' !in ps[j].text {
        assert ps[j] in {Lit(a), Lit(b), Lit(c), Lit(d), Hole(FilenameSlot), Hole(MaxLengthSlot), Hole(LanguageSlot)};
      }
    }
    EachPlaceholderSpelled(a, b, c, d, Placeholders);
    EachPlaceholderValued(a, b, c, d, f, m, l);
  }

  lemma EachPlaceholderSpelled(a: string, b: string, c: string, d: string, marks: Marks)
    ensures Render([Lit(a)] + [Hole(FilenameSlot)] + [Lit(b)] + [Hole(MaxLengthSlot)] + [Lit(c)] + [Hole(LanguageSlot)] + [Lit(d)], marks)
            == a + marks.filename + b + marks.maxLength + c + marks.language + d
  {
    var q1 := [Lit(a)];
    var q2 := q1 + [Hole(FilenameSlot)];
    var q3 := q2 + [Lit(b)];
    var q4 := q3 + [Hole(MaxLengthSlot)];
    var q5 := q4 + [Lit(c)];
    var q6 := q5 + [Hole(LanguageSlot)];
    assert [] + q1 == q1;
    RenderSnoc([], Lit(a), marks);
    RenderSnoc(q1, Hole(FilenameSlot), marks);
    RenderSnoc(q2, Lit(b), marks);
    RenderSnoc(q3, Hole(MaxLengthSlot), marks);
    RenderSnoc(q4, Lit(c), marks);
    RenderSnoc(q5, Hole(LanguageSlot), marks);
    RenderSnoc(q6, Lit(d), marks);
  }

  lemma EachPlaceholderValued(a: string, b: string, c: string, d: string, f: string, m: string, l: string)
    ensures Filled([Lit(a)] + [Hole(FilenameSlot)] + [Lit(b)] + [Hole(MaxLengthSlot)] + [Lit(c)] + [Hole(LanguageSlot)] + [Lit(d)], f, m, l)
            == a + f + b + m + c + l + d
  {
    var q1 := [Lit(a)];
    var q2 := q1 + [Hole(FilenameSlot)];
    var q3 := q2 + [Lit(b)];
    var q4 := q3 + [Hole(MaxLengthSlot)];
    var q5 := q4 + [Lit(c)];
    var q6 := q5 + [Hole(LanguageSlot)];
    assert [] + q1 == q1;
    FilledSnoc([], Lit(a), f, m, l);
    FilledSnoc(q1, Hole(FilenameSlot), f, m, l);
    FilledSnoc(q2, Lit(b), f, m, l);
    FilledSnoc(q3, Hole(MaxLengthSlot), f, m, l);
    FilledSnoc(q4, Lit(c), f, m, l);
    FilledSnoc(q5, Hole(LanguageSlot), f, m, l);
    FilledSnoc(q6, Lit(d), f, m, l);
  }

  /**
   * A template shaped like the default prompt, with the language, the
   * filename, the language again and the length limit between literal
   * text, is filled in place.
   */
  lemma DefaultShapeFilled(a: string, b: string, c: string, d: string, e: string,
                           filename: Option<string>, maxLength: nat, language: string)
    requires '{' !in a && '{' !in b && '{' !in c && '{' !in d && '{' !in e
    requires '{' !in OrText(filename, "unknown") && '$' !in OrText(filename, "unknown")
    requires '{' !in language && '$' !in language
    ensures BuildPrompt(a + "{language}" + b + "{filename}" + c + "{language}" + d + "{maxLength}" + e,
                        filename, maxLength, language)
            == a + language + b + OrText(filename, "unknown") + c + language + d + NatToString(maxLength) + e
  {
    var ps := [Lit(a)] + [Hole(LanguageSlot)] + [Lit(b)] + [Hole(FilenameSlot)] + [Lit(c)] + [Hole(LanguageSlot)]
               + [Lit(d)] + [Hole(MaxLengthSlot)] + [Lit(e)];
    DefaultShapePieces(a, b, c, d, e, OrText(filename, "unknown"), NatToString(maxLength), language);
    PromptFilled(ps, filename, maxLength, language);
  }

  /** The pieces of a template shaped like the default prompt, spelled and filled. */
  lemma DefaultShapePieces(a: string, b: string, c: string, d: string, e: string, f: string, m: string, l: string)
    requires '{' !in a && '{' !in b && '{' !in c && '{' !in d && '{' !in e
    ensures var ps := [Lit(a)] + [Hole(LanguageSlot)] + [Lit(b)] + [Hole(FilenameSlot)] + [Lit(c)] + [Hole(LanguageSlot)]
                       + [Lit(d)] + [Hole(MaxLengthSlot)] + [Lit(e)];
            && PlainPieces(ps)
            && Render(ps, Placeholders) == a + "{language}" + b + "{filename}" + c + "{language}" + d + "{maxLength}" + e
            && Filled(ps, f, m, l) == a + l + b + f + c + l + d + m + e
  {
    var ps := [Lit(a)] + [Hole(LanguageSlot)] + [Lit(b)] + [Hole(FilenameSlot)] + [Lit(c)] + [Hole(LanguageSlot)]
               + [Lit(d)] + [Hole(MaxLengthSlot)] + [Lit(e)];
    assert PlainPieces(ps) by {
      forall j | 0 <= j < |ps| && ps[j].Lit? ensures '{' !in ps[j].text {
        assert ps[j] in {Lit(a), Lit(b), Lit(c), Lit(d), Lit(e), Hole(FilenameSlot), Hole(MaxLengthSlot), Hole(LanguageSlot)};
      }
    }
    DefaultShapeSpelled(a, b, c, d, e, Placeholders);
    DefaultShapeValued(a, b, c, d, e, f, m, l);
  }

  lemma DefaultShapeSpelled(a: string, b: string, c: string, d: string, e: string, marks: Marks)
    ensures Render([Lit(a)] + [Hole(LanguageSlot)] + [Lit(b)] + [Hole(FilenameSlot)] + [Lit(c)] + [Hole(LanguageSlot)]
                       + [Lit(d)] + [Hole(MaxLengthSlot)] + [Lit(e)], marks)
            == a + marks.language + b + marks.filename + c + marks.language + d + marks.maxLength + e
  {
    var q0: seq<Piece> := [];
    var q3 := q0 + [Lit(a)] + [Hole(LanguageSlot)] + [Lit(b)];
    var q6 := q3 + [Hole(FilenameSlot)] + [Lit(c)] + [Hole(LanguageSlot)];
    RenderTriple(q0, Lit(a), Hole(LanguageSlot), Lit(b), marks);
    RenderTriple(q3, Hole(FilenameSlot), Lit(c), Hole(LanguageSlot), marks);
    RenderTriple(q6, Lit(d), Hole(MaxLengthSlot), Lit(e), marks);
    assert q0 + [Lit(a)] == [Lit(a)];
  }

  lemma DefaultShapeValued(a: string, b: string, c: string, d: string, e: string, f: string, m: string, l: string)
    ensures Filled([Lit(a)] + [Hole(LanguageSlot)] + [Lit(b)] + [Hole(FilenameSlot)] + [Lit(c)] + [Hole(LanguageSlot)]
                       + [Lit(d)] + [Hole(MaxLengthSlot)] + [Lit(e)], f, m, l)
            == a + l + b + f + c + l + d + m + e
  {
    var q0: seq<Piece> := [];
    var q3 := q0 + [Lit(a)] + [Hole(LanguageSlot)] + [Lit(b)];
    var q6 := q3 + [Hole(FilenameSlot)] + [Lit(c)] + [Hole(LanguageSlot)];
    FilledTriple(q0, Lit(a), Hole(LanguageSlot), Lit(b), f, m, l);
    FilledTriple(q3, Hole(FilenameSlot), Lit(c), Hole(LanguageSlot), f, m, l);
    FilledTriple(q6, Lit(d), Hole(MaxLengthSlot), Lit(e), f, m, l);
    assert q0 + [Lit(a)] == [Lit(a)];
  }

  /**
   * The plugin's default prompt is filled in full: the language in both
   * places, the filename (or "unknown") between the quotes and the decimal
   * limit after "max ", with every other character kept.
   */
  lemma DefaultPromptFilled(filename: Option<string>, maxLength: nat, language: string)
    requires '{' !in OrText(filename, "unknown") && '$' !in OrText(filename, "unknown")
    requires '{' !in language && '$' !in language
    ensures BuildPrompt(Plugin.DefaultPrompt, filename, maxLength, language)
            == Plugin.PromptIntro + language + Plugin.PromptNameLead + OrText(filename, "unknown")
               + Plugin.PromptRulesLead + language + Plugin.PromptLengthLead + NatToString(maxLength)
               + Plugin.PromptRules
  {
    Plugin.PromptPartsPlain();
    DefaultShapeFilled(Plugin.PromptIntro, Plugin.PromptNameLead, Plugin.PromptRulesLead,
                       Plugin.PromptLengthLead, Plugin.PromptRules, filename, maxLength, language);
  }

  /**
   * The passes run in order, so a filename that itself spells "{language}"
   * is filled again by the later language pass: the prompt shows the
   * language where the filename was meant to go.
   */
  lemma FilenameSpellingLanguageIsFilledLater(a: string, b: string, maxLength: nat, language: string)
    requires '{' !in a && '{' !in b && '{' !in language && '$' !in language
    ensures BuildPrompt(a + "{filename}" + b, Some("{language}"), maxLength, language) == a + language + b
  {
    var ps := [Lit(a)] + ([Hole(LanguageSlot)] + [Lit(b)]);
    SubstituteLiteral("{language}", "{filename}", a, b);
    ReplaceAllOnce(a, "{filename}", b, "{language}");
    PlaceholdersWellMarked();
    DigitsArePlain(maxLength);
    LanguageOnlyPieces(ps, a, b, NatToString(maxLength), language);
    PassFills(ps, MaxLengthSlot, NatToString(maxLength), Placeholders);
    PassFills(ps, LanguageSlot, language, Placeholders);
  }

  /** The pieces of a template whose one placeholder is `{language}`, spelled and filled pass by pass. */
  lemma LanguageOnlyPieces(ps: seq<Piece>, a: string, b: string, m: string, l: string)
    requires '{' !in a && '{' !in b
    requires ps == [Lit(a)] + ([Hole(LanguageSlot)] + [Lit(b)])
    ensures PlainPieces(ps)
    ensures Render(ps, Placeholders) == a + "{language}" + b
    ensures FillSlot(ps, MaxLengthSlot, m) == ps
    ensures Render(FillSlot(ps, LanguageSlot, l), Placeholders) == a + l + b
  {
    var t := [Lit(b)];
    var u := [Hole(LanguageSlot)] + t;
    assert ps[0] == Lit(a) && ps[1..] == u && u[0] == Hole(LanguageSlot) && u[1..] == t && t[1..] == [];
    RenderCons(Lit(b), [], Placeholders);
    assert [Lit(b)] + [] == t;
    RenderCons(Hole(LanguageSlot), t, Placeholders);
    RenderCons(Lit(a), u, Placeholders);
    var filledRest := [Lit(l)] + t;
    assert filledRest[1..] == t;
    assert FillSlot(t, LanguageSlot, l) == [Lit(b)] + [] == t;
    assert FillSlot(u, LanguageSlot, l) == filledRest;
    assert FillSlot(ps, LanguageSlot, l) == [Lit(a)] + filledRest;
    assert FillSlot(t, MaxLengthSlot, m) == [Lit(b)] + [] == t;
    assert FillSlot(u, MaxLengthSlot, m) == u;
    RenderCons(Lit(l), t, Placeholders);
    RenderCons(Lit(a), filledRest, Placeholders);
  }

  /** A prompt without any '{' is sent unchanged. */
  lemma PromptWithoutPlaceholders(template: string, filename: Option<string>, maxLength: nat, language: string)
    requires '{' !in template
    ensures BuildPrompt(template, filename, maxLength, language) == template
  {
    ContainsNeedsFirstChar(template, "{filename}");
    ReplaceAllAbsent(template, "{filename}", OrText(filename, "unknown"));
    ContainsNeedsFirstChar(template, "{maxLength}");
    ReplaceAllAbsent(template, "{maxLength}", NatToString(maxLength));
    ContainsNeedsFirstChar(template, "{language}");
    ReplaceAllAbsent(template, "{language}", language);
  }

  /** The text of a JavaScript `TypeError` raised by reading `.type` of a missing first block. */
  const MissingBlockError: Thrown := ErrorObject("TypeError", "Cannot read properties of undefined (reading 'type')")

  /**
   * `message.content[0].type === 'text' ? text.trim().slice(0, maxLength) : ''`;
   * with no block at all the read throws.
   */
  function SuggestionText(content: seq<ContentBlock>, maxLength: nat): (r: Outcome<string>)
    ensures r.Err? <==> content == []
    ensures r.Ok? ==> |r.value| <= maxLength
    ensures r.Ok? && content[0].OtherBlock? ==> r.value == ""
    ensures r.Ok? && content[0].TextBlock? ==> r.value == Shorten(content[0].text, maxLength)
  {
    if content == [] then Err(MissingBlockError)
    else match content[0]
      case TextBlock(t) => Ok(Shorten(t, maxLength))
      case OtherBlock => Ok("")
  }
}
