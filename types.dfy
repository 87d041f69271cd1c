/**
 * The records of the announcements board: posts, notifications and the
 * dialog's draft, with the fixed labels the page writes into new records
 * and the sample data the page starts with.
 */
module Types {

  datatype Option<+T> = None | Some(value: T)

  /** Lifecycle of a post: exactly one of two values. */
  datatype Status = Active | Archived

  /** What a notification reports: a post was created or updated. */
  datatype NoticeKind = New | Update

  /** An announcement. Ids and dates are the page's strings, kept opaque here. */
  datatype Post = Post(
    id: string,
    title: string,
    content: string,
    author: string,
    date: string,
    status: Status,
    category: string)

  /** A feed entry; `timestamp` is a display label, never recomputed. */
  datatype Notification = Notification(
    id: string,
    message: string,
    kind: NoticeKind,
    timestamp: string)

  /** The form shared by the create and the edit dialog. */
  datatype Draft = Draft(title: string, content: string, category: string)

  const EMPTY_DRAFT := Draft("", "", "")

  /** Author written into every post created on this page. */
  const CURRENT_USER := "Текущий пользователь"

  /** Timestamp label of every notification the page creates. */
  const JUST_NOW := "только что"

  /** Message prefixes of "new" and "update" notifications. */
  const NEW_POST_PREFIX := "Новая публикация: "
  const UPDATE_PREFIX := "Обновление: "

  /**
   * The submit guard: a string field passes when it is non-empty (the page
   * tests truthiness, so a field of blanks passes too).
   */
  predicate IsComplete(d: Draft)
    ensures IsComplete(d) ==> d != EMPTY_DRAFT
    ensures d == Draft(" ", " ", " ") ==> IsComplete(d)
  {
    d.title != "" && d.content != "" && d.category != ""
  }

  /** The archive toggle on one status: the other of the two values. */
  function Flip(s: Status): (r: Status)
    ensures r != s
  {
    match s
    case Active => Archived
    case Archived => Active
  }

  /** The two posts the page starts with. */
  const SAMPLE_POSTS: seq<Post> := [
    Post("1", "Квартальные результаты Q3 2024",
      "Компания показала рост выручки на 23% по сравнению с прошлым кварталом. Команда продаж превысила план на 15%.",
      "Иван Петров", "2024-10-05", Active, "Корпоративные события"),
    Post("2", "Новая корпоративная политика отпусков",
      "С 1 ноября вводятся изменения в порядок согласования отпусков. Подробности в прикрепленном документе.",
      "Мария Сидорова", "2024-10-04", Active, "Новые политики")
  ]

  /** The two notifications the page starts with. */
  const SAMPLE_NOTIFICATIONS: seq<Notification> := [
    Notification("1", "Новая публикация: Квартальные результаты Q3 2024", New, "5 мин назад"),
    Notification("2", "Обновление: Новая корпоративная политика", Update, "2 часа назад")
  ]
}
