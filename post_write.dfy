/**
 * The post editor's submit handler. It clears the status, checks the fields
 * and the session, marks the form as submitting while the insert runs, and
 * reports success or failure. The insert itself is replaced by its outcome;
 * the await on it splits the handler into `BeginSubmit` and `FinishSubmit`.
 */
module PostWrite {

  import opened Opt
  import opened JsStrings

  datatype StatusKind = Success | Error

  /** The message shown under the form. */
  datatype Status = Status(message: string, kind: StatusKind)

  /** The row sent to the `posts` table. */
  datatype Payload = Payload(title: string, category: string, content: string, images: seq<string>, userId: string)

  const MissingFields := "모든 필드를 입력해주세요."
  const LoginRequired := "로그인 후 작성 가능합니다."
  const Posted := "등록 완료"
  const PostFailed := "등록 실패"

  /** The categories the dropdown offers. */
  const Categories := ["트레이닝 팁", "영양 정보", "건강 정보", "운동 루틴", "성공 사례"]

  /** Title and content hold more than whitespace, and a category is chosen. */
  predicate Complete(title: string, category: string, content: string) {
    !IsBlank(title) && category != "" && !IsBlank(content)
  }

  /**
   * The status a whole submit ends with, given the session's user id (none
   * when signed out) and whether the insert succeeded.
   */
  function SubmitStatus(title: string, category: string, content: string,
                        session: Option<string>, inserted: bool): (r: Status)
    // only a complete form from a signed-in user whose insert succeeded is a success
    ensures r.kind.Success? <==> Complete(title, category, content) && session.Some? && inserted
    // the field check comes before the session check, which comes before the insert
    ensures r.message == MissingFields <==> !Complete(title, category, content)
    ensures r.message == LoginRequired <==> Complete(title, category, content) && session.None?
    ensures r.message == PostFailed <==> Complete(title, category, content) && session.Some? && !inserted
    // a success always reads "등록 완료"
    ensures r.message == Posted <==> r.kind.Success?
  {
    if !Complete(title, category, content) then Status(MissingFields, Error)
    else if session.None? then Status(LoginRequired, Error)
    else if inserted then Status(Posted, Success)
    else Status(PostFailed, Error)
  }

  class PostWriteForm {
    var title: string
    var category: string
    var content: string
    var images: seq<string>
    var isSubmitting: bool
    var submitStatus: Option<Status>

    constructor ()
      ensures title == "" && category == "" && content == "" && images == []
      ensures !isSubmitting && submitStatus.None?
    {
      title := "";
      category := "";
      content := "";
      images := [];
      isSubmitting := false;
      submitStatus := None;
    }

    method SetTitle(text: string)
      modifies this`title
      ensures title == text
    {
      title := text;
    }

    method SetContent(html: string)
      modifies this`content
      ensures content == html
    {
      content := html;
    }

    /** Picking an entry of the dropdown. */
    method SelectCategory(choice: string)
      requires choice in Categories
      modifies this`category
      ensures category == choice && category != ""
    {
      category := choice;
    }

    /**
     * `handleSubmit` up to the insert. The submit button is disabled while
     * submitting, so it is not pressed then. Returns the row to insert, or
     * nothing when the handler stopped early with an error.
     */
    method BeginSubmit(session: Option<string>) returns (payload: Option<Payload>)
      requires !isSubmitting
      modifies this`submitStatus, this`isSubmitting
      ensures payload.Some? <==> Complete(title, category, content) && session.Some?
      ensures payload.Some? ==>
        && payload.value == Payload(title, category, content, images, session.value)
        && isSubmitting && submitStatus.None?
      ensures payload.None? ==>
        && !isSubmitting
        && submitStatus == Some(SubmitStatus(title, category, content, session, false))
    {
      submitStatus := None;
      TrimEmptyIffBlank(title);
      TrimEmptyIffBlank(content);
      if Trim(title) == "" || category == "" || Trim(content) == "" {
        submitStatus := Some(Status(MissingFields, Error));
        return None;
      }
      if session.None? {
        submitStatus := Some(Status(LoginRequired, Error));
        return None;
      }
      isSubmitting := true;
      payload := Some(Payload(title, category, content, images, session.value));
    }

    /** The rest of `handleSubmit`, once the insert has reported; `finally` clears the flag. */
    method FinishSubmit(inserted: bool)
      requires isSubmitting
      modifies this`submitStatus, this`isSubmitting
      ensures !isSubmitting
      ensures submitStatus == Some(if inserted then Status(Posted, Success) else Status(PostFailed, Error))
    {
      if inserted {
        submitStatus := Some(Status(Posted, Success));
      } else {
        submitStatus := Some(Status(PostFailed, Error));
      }
      isSubmitting := false;
    }

    /**
     * One press of the submit button from start to finish. Whatever happens
     * the form ends up not submitting, with the status `SubmitStatus` names,
     * and a row is sent only for a complete form, carrying the session's user id.
     */
    method Submit(session: Option<string>, inserted: bool) returns (sent: Option<Payload>)
      requires !isSubmitting
      modifies this`submitStatus, this`isSubmitting
      ensures !isSubmitting
      ensures submitStatus == Some(SubmitStatus(title, category, content, session, inserted))
      ensures sent.Some? <==> Complete(title, category, content) && session.Some?
      ensures sent.Some? ==> sent.value.userId == session.value && sent.value.title == title
    {
      sent := BeginSubmit(session);
      if sent.Some? {
        FinishSubmit(inserted);
      }
    }
  }

  /** A title of spaces alone is refused like an empty one. */
  lemma BlankTitleRefused(content: string, category: string, session: Option<string>, inserted: bool)
    ensures SubmitStatus("   ", category, content, session, inserted) == Status(MissingFields, Error)
  {
    assert IsBlank("   ") by {
      assert forall i :: 0 <= i < 3 ==> "   "[i] == ' ';
    }
  }
}
