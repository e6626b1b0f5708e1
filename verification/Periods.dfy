/** The two budget windows a policy can name. */
module Periods {
  datatype Period = CalendarDay | CalendarMonth
}
