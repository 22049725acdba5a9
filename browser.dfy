/**
 * What the application takes from the JavaScript engine and the browser whose
 * behaviour depends on the engine, the locale or the time zone: date parsing
 * and rendering, number parsing and rendering, and the currency and date
 * formatters of `utils/calculations` (not part of this model). Each is an
 * arbitrary total function; the model assumes nothing about it unless a lemma
 * says so in its `requires`.
 */
module Browser {
  import opened Wrappers

  datatype Host = Host(
    /** `new Date(s).getTime()`; `None` when the date is invalid (the engine's NaN). */
    time: string -> Option<int>,
    /** `(getFullYear(), getMonth())` of `new Date(s)` in local time; `None` when invalid. */
    yearMonth: string -> Option<(int, int)>,
    /** `new Date(s).toISOString().split('T')[0]`, the `YYYY-MM-DD` form. */
    isoDay: string -> string,
    /** `new Date(s).toLocaleDateString('en-US', { month: 'short', year: 'numeric' })`, e.g. "Jan 2024". */
    monthLabel: string -> string,
    /** `new Date(s).toLocaleDateString('en-US', { month: 'short', day: 'numeric' })`, e.g. "Jan 15". */
    dayLabel: string -> string,
    /** `formatDate` of `utils/calculations`. */
    formatDate: string -> string,
    /** `formatCurrency` of `utils/calculations`. */
    formatCurrency: real -> string,
    /** `Number.prototype.toString`. */
    numberToString: real -> string,
    /** `parseFloat`; `None` when the result is NaN. */
    parseFloat: string -> Option<real>
  )
}
