/**
 * The two preview handlers, `/meal/:mealId` and `/story/:userId`.
 *
 * Each starts from the default title, description and image, overwrites them
 * from the upstream record when one came back, and hands the result to the
 * page template. The upstream call, the template file and its rendering are
 * not modelled: the handler's input is the parsed upstream body (None for a
 * non-2xx answer whose body is JSON) and its output is the view object the
 * template is filled from. Answers whose body is not JSON, and a rejected
 * upstream request, leave the request unanswered and are not modelled.
 */
module Preview {
  import opened Wrappers
  import opened Text
  import opened MealTime

  // The source's literals are kept as they appear; the Korean text of the two
  // defaults is not recoverable, so they stand as opaque constants.
  const DEFAULT_TITLE: string := "Floob: ???????????? ??? ?????????"
  const DEFAULT_DESCRIPTION: string := "Floob?????? ????????? ???????????? ?????? ????????? ???????????? ??????????????????."
  const DEFAULT_IMAGE_URL: string := "https://floob.blob.core.windows.net/image/floob_og.jpg"

  const MEAL_URL_BASE: string := "https://floob.co.kr/meal/"
  const MEAL_LINK_BASE: string := "https://link.floob.co.kr/meal/"
  /** The deep link the meal handler renders on its normal path (with a stray `;`). */
  const MEAL_LINK_BASE_AS_RENDERED: string := "https://;link.floob.co.kr/meal/"
  const STORY_URL_BASE: string := "https://floob.co.kr/story/"
  const STORY_LINK_BASE: string := "https://link.floob.co.kr/story/"

  /** What the template is filled from; `id` is `mealId` or `userId`. */
  datatype View = View(
    id: string, url: string, linkUrl: string,
    title: string, description: string,
    ogTitle: string, ogDescription: string, ogImage: string)

  // ---- upstream records: every field may be null or missing ----

  datatype Owner = Owner(nickname: Option<string>)
  datatype MealFile = MealFile(fileType: string, url: string)
  /** `files` is None when the field is null or not an array. */
  datatype Meal = Meal(
    title: Option<string>, owner: Option<Owner>,
    files: Option<seq<MealFile>>, mealedDate: LocalTime)
  datatype MealQuery = MealQuery(getMeal: Option<Meal>)
  /** The parsed upstream body; its `data` member may itself be null. */
  datatype MealResponse = MealResponse(data: Option<MealQuery>)

  datatype StoryUser = StoryUser(
    nickname: Option<string>, name: Option<string>,
    introduction: Option<string>, profileImageUrl: Option<string>)
  datatype UserQuery = UserQuery(getUser: Option<StoryUser>)
  datatype UserResponse = UserResponse(data: Option<UserQuery>)

  // ---- meal preview ----

  /** Reading `data.data.getMeal` throws: the body came back but its `data` member is null. */
  predicate MealLookupThrows(body: Option<MealResponse>) {
    body.Some? && body.value.data.None?
  }

  /** The meal record the handler works from, if the lookup reaches one. */
  function FoundMeal(body: Option<MealResponse>): Option<Meal> {
    if body.Some? && body.value.data.Some? then body.value.data.value.getMeal else None
  }

  predicate HasNickname(owner: Option<Owner>) {
    owner.Some? && Present(owner.value.nickname)
  }

  /** The first attached file is shown only when it is a picture. */
  predicate HasPreviewImage(files: Option<seq<MealFile>>) {
    files.Some? && |files.value| > 0
    && (files.value[0].fileType == "image" || files.value[0].fileType == "emoji")
  }

  /** What follows the author part of a meal description: its title, or the shortened date text. */
  function MealSubject(meal: Meal): string {
    if Present(meal.title) then meal.title.value else ShortenMealDateString(meal.mealedDate)
  }

  /**
   * The `/meal/:mealId` handler's view. The title is never changed; the
   * description is the author (`@nickname`, else the default description)
   * and then the meal's title or its shortened date text; the image is the
   * first file's URL when that file is a picture.
   */
  method RenderMealPreview(mealId: string, body: Option<MealResponse>) returns (view: View)
    ensures view.id == mealId && view.url == MEAL_URL_BASE + mealId
    ensures view.title == DEFAULT_TITLE && view.ogTitle == DEFAULT_TITLE
    ensures view.ogDescription == view.description
    ensures view.linkUrl
         == (if MealLookupThrows(body) then MEAL_LINK_BASE else MEAL_LINK_BASE_AS_RENDERED) + mealId
    ensures FoundMeal(body).None? ==>
              view.description == DEFAULT_DESCRIPTION && view.ogImage == DEFAULT_IMAGE_URL
    ensures FoundMeal(body).Some? ==>
              var meal := FoundMeal(body).value;
              view.description
                == (if HasNickname(meal.owner) then "@" + meal.owner.value.nickname.value
                    else DEFAULT_DESCRIPTION) + " " + MealSubject(meal)
    ensures FoundMeal(body).Some? ==>
              var meal := FoundMeal(body).value;
              (HasNickname(meal.owner) ==> StartsWith(view.description, "@" + meal.owner.value.nickname.value + " "))
              && (!HasNickname(meal.owner) ==> StartsWith(view.description, DEFAULT_DESCRIPTION + " "))
              && EndsWith(view.description, " " + MealSubject(meal))
    ensures FoundMeal(body).Some? ==>
              var meal := FoundMeal(body).value;
              view.ogImage == if HasPreviewImage(meal.files) then meal.files.value[0].url else DEFAULT_IMAGE_URL
  {
    var title := DEFAULT_TITLE;
    var description := DEFAULT_DESCRIPTION;
    var imageUrl := DEFAULT_IMAGE_URL;

    if MealLookupThrows(body) {
      // the TypeError is caught and the page is rendered from the defaults
      view := View(mealId, MEAL_URL_BASE + mealId, MEAL_LINK_BASE + mealId,
                   DEFAULT_TITLE, DEFAULT_DESCRIPTION, DEFAULT_TITLE, DEFAULT_DESCRIPTION, DEFAULT_IMAGE_URL);
      return;
    }

    if body.Some? {
      var found := body.value.data.value.getMeal;
      if found.Some? {
        var meal := found.value;
        if meal.owner.Some? && Present(meal.owner.value.nickname) {
          description := "@" + meal.owner.value.nickname.value;
        }
        if Present(meal.title) {
          description := description + " " + meal.title.value;
        } else {
          description := description + " " + ShortenMealDateString(meal.mealedDate);
        }
        ghost var author := if HasNickname(meal.owner) then "@" + meal.owner.value.nickname.value
                            else DEFAULT_DESCRIPTION;
        AppendAssociative(author, " ", MealSubject(meal));
        EndsWithAppended(author, " " + MealSubject(meal));
        EndsWithAppended(author + " ", MealSubject(meal));
        if meal.files.Some? && |meal.files.value| > 0
          && (meal.files.value[0].fileType == "image" || meal.files.value[0].fileType == "emoji")
        {
          imageUrl := meal.files.value[0].url;
        } else {
          imageUrl := "https://floob.blob.core.windows.net/image/floob_og.jpg";
        }
      }
    }

    view := View(mealId, MEAL_URL_BASE + mealId, MEAL_LINK_BASE_AS_RENDERED + mealId,
                 title, description, title, description, imageUrl);
  }

  // ---- story (user) preview ----

  predicate UserLookupThrows(body: Option<UserResponse>) {
    body.Some? && body.value.data.None?
  }

  function FoundUser(body: Option<UserResponse>): Option<StoryUser> {
    if body.Some? && body.value.data.Some? then body.value.data.value.getUser else None
  }

  /**
   * The `/story/:userId` handler's view. The title is `name • @nickname`,
   * `name`, `@nickname` or the default, by which of the two are present; the
   * description and image fall back to their defaults.
   */
  method RenderStoryPreview(userId: string, body: Option<UserResponse>) returns (view: View)
    ensures view.id == userId && view.url == STORY_URL_BASE + userId
    ensures view.linkUrl == STORY_LINK_BASE + userId
    ensures view.ogTitle == view.title && view.ogDescription == view.description
    ensures FoundUser(body).None? ==>
              view.title == DEFAULT_TITLE && view.description == DEFAULT_DESCRIPTION
              && view.ogImage == DEFAULT_IMAGE_URL
    ensures FoundUser(body).Some? ==>
              var u := FoundUser(body).value;
              && (Present(u.name) && Present(u.nickname) ==>
                    view.title == u.name.value + " " + BULLET + " @" + u.nickname.value)
              && (Present(u.name) && !Present(u.nickname) ==> view.title == u.name.value)
              && (!Present(u.name) && Present(u.nickname) ==> view.title == "@" + u.nickname.value)
              && (!Present(u.name) && !Present(u.nickname) ==> view.title == DEFAULT_TITLE)
              && view.description == (if Present(u.introduction) then u.introduction.value else DEFAULT_DESCRIPTION)
              && view.ogImage == (if Present(u.profileImageUrl) then u.profileImageUrl.value else DEFAULT_IMAGE_URL)
  {
    var title := DEFAULT_TITLE;
    var description := DEFAULT_DESCRIPTION;
    var imageUrl := DEFAULT_IMAGE_URL;

    if UserLookupThrows(body) {
      view := View(userId, STORY_URL_BASE + userId, STORY_LINK_BASE + userId,
                   DEFAULT_TITLE, DEFAULT_DESCRIPTION, DEFAULT_TITLE, DEFAULT_DESCRIPTION, DEFAULT_IMAGE_URL);
      return;
    }

    if body.Some? {
      var found := body.value.data.value.getUser;
      if found.Some? {
        var storyUser := found.value;
        if Present(storyUser.name) {
          title := storyUser.name.value;
          if Present(storyUser.nickname) {
            title := title + " " + BULLET + " @" + storyUser.nickname.value;
          }
        } else {
          if Present(storyUser.nickname) {
            title := "@" + storyUser.nickname.value;
          }
        }
        if Present(storyUser.introduction) {
          description := storyUser.introduction.value;
        }
        if Present(storyUser.profileImageUrl) {
          imageUrl := storyUser.profileImageUrl.value;
        } else {
          imageUrl := "https://floob.blob.core.windows.net/image/floob_og.jpg";
        }
      }
    }

    view := View(userId, STORY_URL_BASE + userId, STORY_LINK_BASE + userId,
                 title, description, title, description, imageUrl);
  }
}
