/** The values of a task's engine choice. */
module EngineChoices {
  const AUTO := "auto"
  const LANGGRAPH := "langgraph"
  const CREWAI := "crewai"
}
