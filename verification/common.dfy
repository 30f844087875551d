/** Failure-carrying results shared by every layer of the model.

    The source reports failure by throwing `Error` objects whose message is
    shown to the user; here each throw site is one constructor of `Error`,
    and `Message` gives the text the source puts in the thrown error.
 */
module Common {

  datatype Option<+T> = None | Some(value: T)

  /** One constructor per distinct `throw` in the modelled code. */
  datatype Error =
    | UserNotFound            // saveUserPreferences: unknown user
    | UserInfoNotFound        // getEvaluatedWhiskeys, getRecentlyViewedWhiskeys: unknown user
    | NoEvaluations           // getEvaluatedWhiskeys: the user wrote no note
    | NoRecentViews           // getRecentlyViewedWhiskeys: empty view history
    | CatalogueEmpty          // getAllWhiskies: the catalogue is empty
    | UserOrWhiskeyNotFound   // submitTastingNote: unknown user or whiskey
    | InvalidRating           // submitTastingNote: a score outside its range
    | NoFilterMatch           // filterWhiskies: nothing survives the filters
    | NothingToSort           // sortWhiskies: empty input
    | RecommendationFailed    // recommendWhiskeys: no candidate left
    | ReferenceNotFound       // getSimilarWhiskies: unknown reference whiskey
    | NoSimilar               // getSimilarWhiskies: nothing scores above the threshold
    | DetailsNotFound         // getWhiskeyDetails: unknown whiskey
    | SaveFailed              // saveUserPreferences: the store update returned nothing
    | PriceBoundsInverted     // handleSavePreferences: minimum above maximum
    | EmptyQuery              // handleRecommend: blank query
    | NotAFunction(callee: string)      // a call of a method the object lacks (TypeError)
    | UndefinedProperty(prop: string)   // a property read on `undefined` (TypeError)

  datatype Result<+T> = Ok(value: T) | Err(error: Error)

  /** The `message` of the error object each throw site constructs. */
  function Message(e: Error): string
  {
    match e
    case UserNotFound => "사용자를 찾을 수 없습니다."
    case UserInfoNotFound => "사용자 정보를 찾을 수 없습니다."
    case NoEvaluations => "평가한 위스키가 없습니다."
    case NoRecentViews => "최근 조회한 위스키가 없습니다."
    case CatalogueEmpty => "위스키 데이터를 불러올 수 없습니다."
    case UserOrWhiskeyNotFound => "사용자 또는 위스키 정보를 찾을 수 없습니다."
    case InvalidRating => "유효하지 않은 평가 점수입니다. 점수는 0-5 (총점은 1-5) 범위여야 합니다."
    case NoFilterMatch => "필터링 조건에 맞는 위스키를 찾을 수 없습니다."
    case NothingToSort => "정렬 조건에 맞는 위스키를 찾을 수 없습니다."
    case RecommendationFailed => "추천 시스템 오류가 발생했습니다. " + "다른 질문을 해주시거나 " + "나중에 다시 시도해주세요."
    case ReferenceNotFound => "기준 위스키를 찾을 수 없습니다."
    case NoSimilar => "유사한 위스키를 찾을 수 없습니다."
    case DetailsNotFound => "정보 없음: 해당 위스키를 찾을 수 없습니다."
    case SaveFailed => "저장 실패: 데이터베이스 업데이트 중 오류가 발생했습니다."
    case PriceBoundsInverted => "최소 가격은 최대 가격보다 클 수 없습니다."
    case EmptyQuery => "추천받고 싶은 내용을 입력해주세요."
    case NotAFunction(callee) => callee + " is not a function"
    case UndefinedProperty(prop) => "Cannot read " + "properties " + "of undefined" + " (reading '" + prop + "')"
  }

  /** JavaScript truthiness of an optional string argument (`if (userId)`). */
  predicate Truthy(s: Option<string>)
  {
    s.Some? && s.value != ""
  }
}
