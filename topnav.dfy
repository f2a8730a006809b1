/**
 * The top navigation bar: the title it shows for a route, whether it shows
 * the back button, and what a click on the user icon does.
 */
module TopNav {

  import opened Opt
  import opened JsStrings

  const WriteTitle := "글쓰기"
  const PostTitle := "게시글 보기"
  const BoardTitle := "게시판"
  const TrainerProfileTitle := "트레이너 프로필"
  const TrainersTitle := "트레이너 찾기"
  const LoginTitle := "로그인"
  const DefaultTitle := "CESKT 인증 트레이너"

  /** `getTitle`: the first rule that applies to the path decides. */
  function Title(path: string): (r: string)
    ensures StartsWith(path, "/board/write") ==> r == WriteTitle
    ensures !StartsWith(path, "/board/write") && StartsWith(path, "/board/") ==> r == PostTitle
    ensures path == "/board" ==> r == BoardTitle
    ensures StartsWith(path, "/trainers/") ==> r == TrainerProfileTitle
    ensures path == "/trainers" ==> r == TrainersTitle
    ensures path == "/login" ==> r == LoginTitle
    ensures r == DefaultTitle <==>
      !StartsWith(path, "/board/") && path != "/board" && !StartsWith(path, "/trainers/")
      && path != "/trainers" && path != "/login"
  {
    // a path under "/board/" has 'b' as its second character, so no trainer or login rule can apply to it
    assert StartsWith(path, "/board/") ==> path[1] == 'b';
    if StartsWith(path, "/board/write") then WriteTitle
    else if StartsWith(path, "/board/") && path != "/board" then PostTitle
    else if path == "/board" then BoardTitle
    else if StartsWith(path, "/trainers/") && path != "/trainers" then TrainerProfileTitle
    else if path == "/trainers" then TrainersTitle
    else if path == "/login" then LoginTitle
    else DefaultTitle
  }

  /** Every board title comes from a path under `/board`, every trainer title from one under `/trainers`. */
  lemma TitleSource(path: string)
    ensures Title(path) in {WriteTitle, PostTitle, BoardTitle} ==> StartsWith(path, "/board")
    ensures Title(path) in {TrainerProfileTitle, TrainersTitle} ==> StartsWith(path, "/trainers")
  {
    if StartsWith(path, "/board/") {
      assert path[..6] == "/board";
    }
    if StartsWith(path, "/trainers/") {
      assert path[..9] == "/trainers";
    }
  }

  /** The page is the home page exactly at `/`. */
  predicate IsHome(path: string): (r: bool)
    // the home page carries the default title
    ensures r ==> Title(path) == DefaultTitle
  {
    path == "/"
  }

  /** The back button is rendered everywhere except on the home page. */
  predicate BackButtonShown(path: string): (r: bool)
    // every page that has a title of its own has a way back
    ensures Title(path) != DefaultTitle ==> r
    ensures !r <==> path == "/"
  {
    !IsHome(path)
  }

  /** What a click on the user icon does. */
  datatype IconAction = SetProfileMenu(show: bool) | NavigateTo(route: string)

  /** `handleUserIconClick`: with an email, toggle the menu; without one, go to the login page. */
  function UserIconClick(email: Option<string>, showProfileMenu: bool): (r: IconAction)
    ensures OptTruthy(email) <==> r.SetProfileMenu?
    ensures r.SetProfileMenu? ==> r.show == !showProfileMenu
    ensures r.NavigateTo? ==> r.route == "/login"
  {
    if OptTruthy(email) then SetProfileMenu(!showProfileMenu) else NavigateTo("/login")
  }

  /** The profile menu is on screen only for a signed-in user who opened it. */
  predicate ProfileMenuShown(email: Option<string>, showProfileMenu: bool): (r: bool)
    // the menu belongs to a signed-in user, and a click on the icon while it is open closes it
    ensures r ==> OptTruthy(email) && UserIconClick(email, showProfileMenu) == SetProfileMenu(false)
    ensures !OptTruthy(email) ==> !r
  {
    OptTruthy(email) && showProfileMenu
  }

  /** The menu state after a click on the user icon: toggled for a signed-in user, untouched otherwise. */
  function MenuAfterClick(email: Option<string>, showProfileMenu: bool): bool {
    match UserIconClick(email, showProfileMenu)
    case SetProfileMenu(show) => show
    case NavigateTo(_) => showProfileMenu
  }

  /**
   * After a click the menu is on screen exactly when the user is signed in
   * and it was closed, and a second click restores the first state.
   */
  lemma ClickTogglesMenu(email: Option<string>, showProfileMenu: bool)
    ensures ProfileMenuShown(email, MenuAfterClick(email, showProfileMenu)) <==> OptTruthy(email) && !showProfileMenu
    ensures MenuAfterClick(email, MenuAfterClick(email, showProfileMenu)) == showProfileMenu
  {
  }
}
