/** The date arithmetic the views need, reduced to one abstract input. */
module Calendar {
  import opened Wrappers

  /** For a date text, the whole days from today's midnight to that date's
      midnight, rounded up (`Math.ceil` of the millisecond difference over a
      day); `None` when the text is not a date and the difference is NaN. */
  type DaysFromToday = string -> Option<int>
}
