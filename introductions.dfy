/** The self-introduction entity (domain/introduction) and its external
    links (domain/dashboard/value/ExternalLink.java). */
module Introductions {
  import opened Wrappers
  import opened Text
  import opened Users

  const LinkNameBlankMessage := "이름이 null일 수 없습니다."
  const LinkUrlBlankMessage := "주소가 null일 수 없습니다."
  const CreatedByNullMessage := "생성자는 null일 수 없습니다."
  const CreatedAtNullMessage := "생성일시는 null일 수 없습니다."
  const UpdatedByNullMessage := "수정자는 null일 수 없습니다."
  const UpdatedAtNullMessage := "수정일시는 null일 수 없습니다."
  const TitleBlankMessage := "제목은 비어있을 수 없습니다."
  const ContentBlankMessage := "내용은 비어있을 수 없습니다."

  datatype ExternalLink = ExternalLink(name: string, url: string, logoUrl: Option<string>)

  /** `new ExternalLink(name, url, logoUrl)`: name, then url, must be present
      and not blank; the logo is optional. */
  function NewExternalLink(name: Option<string>, url: Option<string>, logoUrl: Option<string>)
    : (r: Result<ExternalLink>)
    ensures r.Ok? <==> !NullOrBlank(name) && !NullOrBlank(url)
    ensures NullOrBlank(name) ==> r == Fail(Domain(LinkNameBlankMessage))
    ensures !NullOrBlank(name) && NullOrBlank(url) ==> r == Fail(Domain(LinkUrlBlankMessage))
    ensures r.Ok? ==> r.value == ExternalLink(name.value, url.value, logoUrl)
  {
    if NullOrBlank(name) then Fail(Domain(LinkNameBlankMessage))
    else if NullOrBlank(url) then Fail(Domain(LinkUrlBlankMessage))
    else Ok(ExternalLink(name.value, url.value, logoUrl))
  }

  /** The logo never decides acceptance. */
  lemma LogoIsOptional(name: Option<string>, url: Option<string>, logoUrl: Option<string>)
    ensures NewExternalLink(name, url, logoUrl).Ok? <==> NewExternalLink(name, url, None).Ok?
  {
  }

  /** `Introduction.validation()`: a title, then a content, not blank. */
  function IntroductionValidation(title: Option<string>, content: Option<string>): (r: Outcome)
    ensures r == Pass <==> !NullOrBlank(title) && !NullOrBlank(content)
    ensures NullOrBlank(title) ==> r == Raise(Domain(TitleBlankMessage))
    ensures !NullOrBlank(title) && NullOrBlank(content) ==> r == Raise(Domain(ContentBlankMessage))
  {
    if NullOrBlank(title) then Raise(Domain(TitleBlankMessage))
    else if NullOrBlank(content) then Raise(Domain(ContentBlankMessage))
    else Pass
  }

  /** `Introduction`: title, content and links, with who wrote and changed
      them and when (times are supplied by the caller). */
  class Introduction {
    var title: Option<string>
    var content: Option<string>
    var externalLinks: seq<ExternalLink>
    const createdBy: User
    var updatedBy: User?
    const createdAt: int
    var updatedAt: Option<int>

    constructor Init(title: Option<string>, content: Option<string>, externalLinks: seq<ExternalLink>,
                     createdBy: User, createdAt: int)
      ensures this.title == title && this.content == content && this.externalLinks == externalLinks
      ensures this.createdBy == createdBy && this.createdAt == createdAt
      ensures updatedBy == null && updatedAt == None
    {
      this.title := title;
      this.content := content;
      this.externalLinks := externalLinks;
      this.createdBy := createdBy;
      this.createdAt := createdAt;
      this.updatedBy := null;
      this.updatedAt := None;
    }

    /** The builder constructor: author and creation time first, then the
        links (a missing list throws when copied), then the validation. */
    static method Create(title: Option<string>, content: Option<string>, externalLinks: Option<seq<ExternalLink>>,
                         createdBy: User?, createdAt: Option<int>) returns (r: Result<Introduction>)
      ensures createdBy == null ==> r == Fail(Domain(CreatedByNullMessage))
      ensures createdBy != null && createdAt.None? ==> r == Fail(Domain(CreatedAtNullMessage))
      ensures createdBy != null && createdAt.Some? && externalLinks.None? ==> r == Fail(NullPointer)
      ensures createdBy != null && createdAt.Some? && externalLinks.Some?
        ==> (var v := IntroductionValidation(title, content);
             (v.Raise? ==> r == Fail(v.error)) && (v == Pass <==> r.Ok?))
      ensures r.Ok? ==> (fresh(r.value) && r.value.title == title && r.value.content == content
        && r.value.externalLinks == externalLinks.value && r.value.createdBy == createdBy
        && r.value.createdAt == createdAt.value && r.value.updatedBy == null)
    {
      if createdBy == null {
        return Fail(Domain(CreatedByNullMessage));
      }
      if createdAt.None? {
        return Fail(Domain(CreatedAtNullMessage));
      }
      if externalLinks.None? {
        return Fail(NullPointer);
      }
      var v := IntroductionValidation(title, content);
      if v.Raise? {
        return Fail(v.error);
      }
      var i := new Introduction.Init(title, content, externalLinks.value, createdBy, createdAt.value);
      return Ok(i);
    }

    /** `update`: author and time are checked before anything changes; then
        title, content, time and author are assigned and the links cleared
        and refilled before the validation, so a refused update (or a
        missing list) leaves the new values in place.  The creation fields
        are constants. */
    method Update(title: Option<string>, content: Option<string>, externalLinks: Option<seq<ExternalLink>>,
                  updatedBy: User?, updatedAt: Option<int>) returns (r: Outcome)
      modifies this
      ensures updatedBy == null ==> r == Raise(Domain(UpdatedByNullMessage))
      ensures updatedBy != null && updatedAt.None? ==> r == Raise(Domain(UpdatedAtNullMessage))
      ensures (updatedBy == null || updatedAt.None?) ==> (this.title == old(this.title)
        && this.content == old(this.content) && this.externalLinks == old(this.externalLinks)
        && this.updatedBy == old(this.updatedBy) && this.updatedAt == old(this.updatedAt))
      ensures updatedBy != null && updatedAt.Some? ==> (this.title == title && this.content == content
        && this.updatedBy == updatedBy && this.updatedAt == updatedAt
        && this.externalLinks == (if externalLinks.None? then [] else externalLinks.value)
        && r == (if externalLinks.None? then Raise(NullPointer) else IntroductionValidation(title, content)))
    {
      if updatedBy == null {
        return Raise(Domain(UpdatedByNullMessage));
      }
      if updatedAt.None? {
        return Raise(Domain(UpdatedAtNullMessage));
      }
      this.title := title;
      this.content := content;
      this.updatedAt := updatedAt;
      this.updatedBy := updatedBy;
      this.externalLinks := [];
      if externalLinks.None? {
        return Raise(NullPointer);
      }
      this.externalLinks := externalLinks.value;
      r := IntroductionValidation(title, content);
    }

    /** `getExternalLinks`: a read-only view. */
    function GetExternalLinks(): seq<ExternalLink>
      reads this
    {
      externalLinks
    }
  }
}
