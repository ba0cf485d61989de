/**
 * The result items the search handler returns to the renderer. Each variant
 * is one `type` of the source's result objects and keeps the fields the
 * renderer acts on; display-only text that depends on number formatting or
 * URL parsing is not kept.
 */
module Items {

  /** The fields read from the weather service's `current_condition[0]`. */
  datatype WeatherReport = WeatherReport(tempC: string, feelsLikeC: string, humidity: string, condition: string)

  /** Which computation produced a `calc` item (the source tells them apart by description). */
  datatype CalcKind = Arithmetic | Temperature | Units | Currency

  datatype Item =
    | WeatherItem(name: string, report: WeatherReport)          // type 'weather'
    | AliasItem(key: string, commands: seq<string>)             // type 'alias'
    | CommandItem(command: string)                              // type 'command' (a `>` shell line)
    | WebItem(name: string, url: string)                        // type 'web' (web search and bookmarks)
    | SysCommandItem(name: string, command: string, token: string)  // type 'syscommand'
    | CalcItem(kind: CalcKind, result: real)                    // type 'calc'
    | ClipboardItem(name: string, value: string)                // type 'clipboard'
    | AppItem(name: string, path: string, icon: string, description: string)  // type 'app'
    | FileItem(name: string, path: string, folder: string)      // type 'file'
}
