/** The period pickers' option lists shared by the views. */
module Constants {
  const YEARS: seq<string> := ["2023", "2024", "2025"]
  const MONTHS: seq<string> := ["ENE", "FEB", "MAR", "ABR", "MAY", "JUN", "JUL", "AGO", "SEP", "OCT", "NOV", "DIC"]
  const QUARTERS: seq<string> := ["Q1", "Q2", "Q3", "Q4"]
}

/** The dashboard's tab enumerations; `ViewTab.OCUPACION` carries the value 'OCUPACIÓN'. */
module Tabs {
  datatype ViewTab = BALANCE | OCUPACION | FISCAL
  datatype BottomTab = INICIO | BUSCAR | PERFIL

  function ViewTabValue(v: ViewTab): string {
    match v
    case BALANCE => "BALANCE"
    case OCUPACION => "OCUPACIÓN"
    case FISCAL => "FISCAL"
  }
}
