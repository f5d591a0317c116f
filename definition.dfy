/**
 * Constants of the session-report tool
 * (src/pmctl/performance-session-report/Definition.h and Definition.cpp).
 */
module Definition {
  // Event types carried by legacy pmtrace user events.
  const TRACE_TYPE_SOINFO: string := "soinfo"
  const TRACE_TYPE_START: string := "start"
  const TRACE_TYPE_END: string := "end"
  const TRACE_TYPE_BIN_INFO: string := "bin_info"
  const TRACE_TYPE_BUILD_ID: string := "build_id"
  const TRACE_TYPE_DEBUG_LINK: string := "debug_link"
  const TRACE_TYPE_TOUCHCOORDINATE: string := "touchcoordinate"
  const TRACE_TYPE_MESSAGE: string := "message"
  const TRACE_TYPE_KEYVALUE: string := "keyValue"
  const TRACE_TYPE_BEFORE: string := "before"
  const TRACE_TYPE_AFTER: string := "after"
  const TRACE_TYPE_SCOPE_ENTRY: string := "scope_entry"
  const TRACE_TYPE_SCOPE_EXIT: string := "scope_exit"
  const TRACE_TYPE_FUNCTION_ENTRY: string := "function_entry"
  const TRACE_TYPE_FUNCTION_EXIT: string := "function_exit"
  const TRACE_TYPE_IM_FUNCTION_ENTRY: string := "input_change_function_entry"
  const TRACE_TYPE_IM_FUNCTION_EXIT: string := "input_change_function_exit"

  // The one kernel event the report understands.
  const TRACE_KERNEL_SCHED_SWITCH: string := "sched_switch"

  // Event types of the new pmtrace format.
  const TRACE_TYPE_LOG: string := "log"
  const TRACE_TYPE_BLOCK_ENTRY: string := "block_entry"
  const TRACE_TYPE_BLOCK_EXIT: string := "block_exit"
  const TRACE_TYPE_MARKER: string := "marker"

  const LTTNG_EVENT_ALL: string := "all"
  const LTTNG_EVENT_USER: string := "user"
  const LTTNG_EVENT_KERNEL: string := "kernel"

  /** What getPayload answers for a key that is not stored. */
  const NO_DATA: string := "NODATA"

  // The files the session report reads and writes unless options name others
  const DEFAULT_INPUT_FILE: string := "/tmp/pmtrace/lttng.txt"
  const DEFAULT_OUTPUT_FILE: string := "/tmp/session-report-result.json"
  const DEFAULT_CONFIG_FILE: string := "/etc/pmtrace/session-report-conf.json"

  const RETURN_TRUE: int := 1
  const RETURN_FALSE: int := 0
  const RETURN_ERROR: int := -99999

  const CPU_USAGE_CORE_MAX: int := 100
  const CPU_USAGE_TOTAL_MAX: int := 100
  /** Length of a CPU-usage window in microseconds when no -m option is given. */
  const DEFAULT_CPU_USAGE_PERIOD: nat := 10000

  // Indexes of the fields of a split trace line.
  const MSG_INDEX_TIMESTAMP: nat := 0
  const MSG_INDEX_HOSTNAME: nat := 2
  const MSG_INDEX_PROVIDER_AND_EVENT: nat := 3
  const MSG_INDEX_CPU_ID: nat := 7
  const MSG_INDEX_PROCESS_NAME: nat := 12
  const MSG_INDEX_PROCESS_ID: nat := 15
  const MSG_INDEX_THREAD_ID: nat := 18
  const MSG_INDEX_MINIMUM_USER: nat := MSG_INDEX_THREAD_ID + 2
  const MSG_INDEX_MINIMUM_KERNEL: nat := MSG_INDEX_PROCESS_ID + 2

  // Trace-event "pid" values of the synthetic views.
  const CPU_CORE_VIEW_ID: int := -1
  const CPU_PROCESS_VIEW_ID: int := -2
  const CPU_CORE_BASE_NUMBER: int := -1
  const GROUP_VIEW_ID_BASE: int := CPU_PROCESS_VIEW_ID - 1
}
