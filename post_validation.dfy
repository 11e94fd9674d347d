/**
 * post-service/src/utils/validation.js: the Joi schema of a create-post
 * request body. `schema.validate` never throws; it returns the first problem
 * it meets (Joi's default `abortEarly`), checking the declared keys in
 * declaration order and only then the keys nobody declared.
 */
module PostValidation {
  import opened Wrappers
  import opened Json

  /**
   * JavaScript's `length` of a string: the number of UTF-16 code units, so a
   * character outside the Basic Multilingual Plane (above U+FFFF) counts twice.
   */
  function Utf16Length(s: string): (n: nat)
    ensures |s| <= n <= 2 * |s|
    ensures n == |s| <==> forall i :: 0 <= i < |s| ==> s[i] as int <= 0xFFFF
  {
    if s == [] then 0
    else (if s[0] as int > 0xFFFF then 2 else 1) + Utf16Length(s[1..])
  }

  const MinContentLength: nat := 3
  const MaxContentLength: nat := 5000

  /** The keys of `Joi.object({content, mediaId})`; Joi refuses any other key by default. */
  const DeclaredKeys: set<string> := {"content", "mediaId"}

  datatype Problem =
    | NotAnObject
    | ContentRequired
    | ContentNotString
    | ContentEmpty
    | ContentTooShort
    | ContentTooLong
    | MediaIdNotArray
    | KeyNotAllowed

  /** `error.details[0].message` for each problem (the offending key's name is not kept). */
  function ProblemMessage(p: Problem): string {
    match p
    case NotAnObject => "\"value\" must be of type object"
    case ContentRequired => "\"content\" is required"
    case ContentNotString => "\"content\" must be a string"
    case ContentEmpty => "\"content\" is not allowed to be empty"
    case ContentTooShort => "\"content\" length must be at least 3 characters long"
    case ContentTooLong => "\"content\" length must be less than or equal to 5000 characters long"
    case MediaIdNotArray => "\"mediaId\" must be an array"
    case KeyNotAllowed => "is not allowed"
  }

  /** The bodies the schema lets through, stated key by key. */
  predicate Accepted(body: Value) {
    && body.Obj?
    && "content" in body.fields
    && body.fields["content"].Str?
    && MinContentLength <= Utf16Length(body.fields["content"].s) <= MaxContentLength
    && ("mediaId" in body.fields ==> body.fields["mediaId"].Arr?)
    && body.fields.Keys <= DeclaredKeys
  }

  function ContentProblem(content: Option<Value>): Option<Problem> {
    match content
    case None => Some(ContentRequired)
    case Some(v) =>
      if !v.Str? then Some(ContentNotString)
      else if |v.s| == 0 then Some(ContentEmpty)
      else if Utf16Length(v.s) < MinContentLength then Some(ContentTooShort)
      else if Utf16Length(v.s) > MaxContentLength then Some(ContentTooLong)
      else None
  }

  function ValidatePostObject(body: Value): (r: Outcome<Problem>)
    ensures r.Pass? <==> Accepted(body)
    ensures body.Obj? && "content" !in body.fields ==> r == Fail(ContentRequired)
  {
    if !body.Obj? then Fail(NotAnObject)
    else
      var contentProblem := ContentProblem(Get(body, "content"));
      if contentProblem.Some? then Fail(contentProblem.value)
      else if "mediaId" in body.fields && !body.fields["mediaId"].Arr? then Fail(MediaIdNotArray)
      else if !(body.fields.Keys <= DeclaredKeys) then Fail(KeyNotAllowed)
      else Pass
  }

  /**
   * A body carrying `mediaIds`, the key the controller reads, never passes:
   * every post is therefore created without media.
   */
  lemma MediaIdsNeverAccepted(body: Value)
    requires body.Obj? && "mediaIds" in body.fields
    ensures ValidatePostObject(body).Fail?
  {
    assert "mediaIds" !in DeclaredKeys;
  }

  /** Content length, in UTF-16 code units, is checked on both bounds, inclusive. */
  lemma ContentBounds(content: string)
    ensures ValidatePostObject(Obj(map["content" := Str(content)])).Pass?
            <==> MinContentLength <= Utf16Length(content) <= MaxContentLength
  {
    var body := Obj(map["content" := Str(content)]);
    assert body.fields.Keys == {"content"};
  }

  /**
   * Two emoji make four code units, so a body whose content is two U+1F600 emoji passes although
   * it holds only two characters.
   */
  lemma AstralCharactersCountTwice()
    ensures Utf16Length("\U{1F600}\U{1F600}") == 4
    ensures ValidatePostObject(Obj(map["content" := Str("\U{1F600}\U{1F600}")])).Pass?
  {
  }

  /** The body the controller evidently meant to admit: `mediaIds` declared instead of `mediaId`. */
  predicate IntendedAccepted(body: Value) {
    && body.Obj?
    && "content" in body.fields
    && body.fields["content"].Str?
    && MinContentLength <= Utf16Length(body.fields["content"].s) <= MaxContentLength
    && ("mediaIds" in body.fields ==> body.fields["mediaIds"].Arr?)
    && body.fields.Keys <= {"content", "mediaIds"}
  }

  lemma IntendedAcceptsMedia(content: string, ids: seq<string>)
    requires MinContentLength <= Utf16Length(content) <= MaxContentLength
    ensures IntendedAccepted(Obj(map["content" := Str(content), "mediaIds" := StrArr(ids)]))
    ensures !Accepted(Obj(map["content" := Str(content), "mediaIds" := StrArr(ids)]))
  {
    var body := Obj(map["content" := Str(content), "mediaIds" := StrArr(ids)]);
    assert body.fields.Keys == {"content", "mediaIds"};
    assert "mediaIds" !in DeclaredKeys;
  }
}
