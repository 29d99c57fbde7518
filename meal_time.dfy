/**
 * The meal-time rules of the preview service: which meal an hour of the day
 * belongs to (`convertMealType`) and the short "month/day • meal" text shown
 * for a meal without a title (`convertShortenMealDateString`).
 *
 * The timestamp itself is not modelled: the month, day and hour are the
 * local-time fields the date library reads from it.
 */
module MealTime {
  import opened Wrappers
  import opened Decimal
  import opened Text

  datatype MealType = Breakfast | Lunch | Dinner | MidnightSnack

  /** Local month (1-12), day of month (1-31) and hour (0-23) of a meal's timestamp. */
  datatype LocalTime = LocalTime(month: nat, day: nat, hour: nat)

  const BULLET: string := "•"
  /** What follows the month number in the `M월 D일` format. */
  const MONTH_MARK: string := "월 "
  /** What follows the day number, up to the meal label. */
  const DAY_MARK: string := "일 " + BULLET + " "

  const BREAKFAST_LABEL: string := "아침 식사"
  const LUNCH_LABEL: string := "점심 식사"
  const DINNER_LABEL: string := "저녁 식사"
  const MIDNIGHT_SNACK_LABEL: string := "야식"

  /** The meal an hour belongs to: [5,11) breakfast, [11,17) lunch, [17,23) dinner, otherwise a midnight snack. */
  function ConvertMealType(hour: int): (t: MealType)
    ensures t == Breakfast <==> 5 <= hour < 11
    ensures t == Lunch <==> 11 <= hour < 17
    ensures t == Dinner <==> 17 <= hour < 23
    ensures t == MidnightSnack <==> hour < 5 || hour >= 23
  {
    if 5 <= hour < 11 then Breakfast
    else if 11 <= hour < 17 then Lunch
    else if 17 <= hour < 23 then Dinner
    else MidnightSnack
  }

  function MealLabel(t: MealType): string {
    match t
    case Breakfast => BREAKFAST_LABEL
    case Lunch => LUNCH_LABEL
    case Dinner => DINNER_LABEL
    case MidnightSnack => MIDNIGHT_SNACK_LABEL
  }

  /** The inverse of MealLabel. */
  function LabelMealType(name: string): (r: Option<MealType>)
    ensures r.Some? ==> MealLabel(r.value) == name
  {
    if name == BREAKFAST_LABEL then Some(Breakfast)
    else if name == LUNCH_LABEL then Some(Lunch)
    else if name == DINNER_LABEL then Some(Dinner)
    else if name == MIDNIGHT_SNACK_LABEL then Some(MidnightSnack)
    else None
  }

  /** The four labels are pairwise distinct: each one names its meal type back. */
  lemma LabelMealTypeOfMealLabel(t: MealType)
    ensures LabelMealType(MealLabel(t)) == Some(t)
  {
  }

  /** The `M월 D일` prefix, followed by the bullet that separates it from the label. */
  function MonthDayPrefix(month: nat, day: nat): (p: string)
    ensures StartsWith(p, NatToString(month) + MONTH_MARK)
    ensures EndsWith(p, DAY_MARK)
  {
    NatToString(month) + MONTH_MARK + NatToString(day) + DAY_MARK
  }

  /** The shortened date text: the month/day prefix, then the label of the hour's meal type. */
  function ShortenMealDateString(date: LocalTime): (s: string)
    ensures StartsWith(s, MonthDayPrefix(date.month, date.day))
    ensures EndsWith(s, MealLabel(ConvertMealType(date.hour)))
  {
    MonthDayPrefix(date.month, date.day) + MealLabel(ConvertMealType(date.hour))
  }

  /** Reads a shortened date text back into its month, day and meal type. */
  function ParseShortenMealDateString(s: string): Option<(nat, nat, MealType)> {
    match ReadNumberThen(s, MONTH_MARK)
    case None => None
    case Some((month, r1)) =>
      match ReadNumberThen(r1, DAY_MARK)
      case None => None
      case Some((day, r2)) =>
        match LabelMealType(r2)
        case None => None
        case Some(t) => Some((month, day, t))
  }

  /** The shortened text loses nothing: month, day and meal type can all be read back from it. */
  lemma ParseShortenMealDateStringRoundTrip(date: LocalTime)
    ensures ParseShortenMealDateString(ShortenMealDateString(date))
         == Some((date.month, date.day, ConvertMealType(date.hour)))
  {
    var t := ConvertMealType(date.hour);
    var rest1 := NatToString(date.day) + DAY_MARK + MealLabel(t);
    AppendAssociative(NatToString(date.month) + MONTH_MARK, NatToString(date.day), DAY_MARK + MealLabel(t));
    AppendAssociative(NatToString(date.month) + MONTH_MARK + NatToString(date.day), DAY_MARK, MealLabel(t));
    AppendAssociative(NatToString(date.month), MONTH_MARK, NatToString(date.day) + (DAY_MARK + MealLabel(t)));
    AppendAssociative(NatToString(date.day), DAY_MARK, MealLabel(t));
    assert ShortenMealDateString(date) == NatToString(date.month) + MONTH_MARK + rest1;
    ReadNumberThenOfConcat(date.month, MONTH_MARK, rest1);
    ReadNumberThenOfConcat(date.day, DAY_MARK, MealLabel(t));
    LabelMealTypeOfMealLabel(t);
  }

  /**
   * Two meals on the same day get the same shortened text exactly when their
   * hours fall in the same meal-type bucket: the label depends on nothing else.
   */
  lemma ShortenDependsOnlyOnMealType(month: nat, day: nat, h1: nat, h2: nat)
    ensures ShortenMealDateString(LocalTime(month, day, h1)) == ShortenMealDateString(LocalTime(month, day, h2))
        <==> ConvertMealType(h1) == ConvertMealType(h2)
  {
  }

  /** Different days never share a shortened text. */
  lemma ShortenDistinguishesDays(d1: LocalTime, d2: LocalTime)
    requires (d1.month, d1.day) != (d2.month, d2.day)
    ensures ShortenMealDateString(d1) != ShortenMealDateString(d2)
  {
    ParseShortenMealDateStringRoundTrip(d1);
    ParseShortenMealDateStringRoundTrip(d2);
  }
}
