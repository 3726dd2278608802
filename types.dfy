/**
 * The application's entities. Dates are integers: instants are
 * milliseconds since the epoch and habit completion dates are day numbers,
 * whose numeric order is the chronological (and `YYYY-MM-DD`
 * lexicographic) order. Optional properties are `Option`s.
 */
module Types {
  import opened Wrappers

  datatype TaskPriority = Low | Medium | High | UrgentPriority
  datatype TaskStatus = Pending | InProgress | Completed | Cancelled
  datatype TaskCategory = Work | Personal | Social | Web3 | Health

  /** The five categories, in declaration order. */
  const Categories: seq<TaskCategory> := [Work, Personal, Social, Web3, Health]

  datatype Task = Task(
    id: string,
    title: string,
    description: Option<string>,
    status: TaskStatus,
    priority: TaskPriority,
    category: TaskCategory,
    dueDate: Option<int>,
    createdAt: int,
    completedAt: Option<int>,
    deepLink: Option<string>,
    externalUrl: Option<string>,
    tags: seq<string>)

  datatype HabitFrequency = Daily | Weekly | Custom

  datatype Habit = Habit(
    id: string,
    title: string,
    description: Option<string>,
    frequency: HabitFrequency,
    targetDays: Option<seq<int>>,
    streak: int,
    longestStreak: int,
    completedDates: seq<int>,
    createdAt: int,
    color: string,
    icon: string)

  datatype TimerStatus = Idle | Running | Paused | Break

  datatype TimeEntry = TimeEntry(
    id: string,
    taskId: Option<string>,
    title: string,
    startTime: int,
    endTime: Option<int>,
    duration: int,
    category: TaskCategory)

  datatype Note = Note(
    id: string,
    title: string,
    content: string,
    createdAt: int,
    updatedAt: int,
    tags: seq<string>,
    isPinned: bool)

  datatype NotificationType = Guilt | Celebration | PassiveAggressive | Urgent | Fomo

  /** The faces a stored notification can show. */
  datatype Expression = SadFace | HappyFace | AngryFace | SchemingFace | CelebratingFace

  datatype Notification = Notification(
    id: string,
    kind: NotificationType,
    title: string,
    message: string,
    taskId: Option<string>,
    deepLink: Option<string>,
    createdAt: int,
    read: bool,
    mascotExpression: Expression)

  datatype MascotMood = Happy | Sad | Excited | Disappointed | Scheming | Celebrating | Neutral

  datatype MascotState = MascotState(mood: MascotMood, message: string, lastInteraction: int)

  datatype AppView = TasksView | HabitsView | TimerView | NotesView | SettingsView
}
